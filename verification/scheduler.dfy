/**
 * The fixed-timestep frame loop of `TestGame.Run`: each outer iteration polls
 * events, measures the elapsed performance-counter time, clamps it, adds it to
 * an accumulator, drains the accumulator in fixed `Dt` steps (each step is
 * one `Update`), and draws once if any step ran and quit was not requested.
 *
 * Doubles and floats are modelled as `real`; the polled events and the
 * counter readings are inputs.
 */
module Scheduler {
  import opened Machine

  /** The fixed simulation step, in seconds. */
  const Dt: real := 0.01

  /** Longest frame time the loop will catch up on, in seconds. */
  const MaxFrameTime: real := 0.25

  /** Most steps one outer iteration can run from a drained accumulator. */
  const MaxCatchUp: nat := 25

  datatype Event = QuitEvent | OtherEvent(kind: nat)

  /**
   * The loop's mutable state: simulated time `t`, the unconsumed wall time
   * `accumulator`, the `quit` flag, the shader uniform's `uniformTime`, and
   * the counter value read at the previous iteration.
   */
  datatype Clock = Clock(t: real, accumulator: real, quit: bool, uniformTime: real, currentTicks: UInt64)

  /** What one outer iteration observes: the pending events and the new counter value. */
  datatype Poll = Poll(events: seq<Event>, ticks: UInt64)

  /** The state after one outer iteration, the number of steps it ran and whether it drew. */
  datatype Iteration = Iteration(clock: Clock, updates: nat, drew: bool)

  /**
   * The clock when the loop starts: nothing simulated, nothing accumulated,
   * quit not requested, and the counter read once.
   */
  function Start(ticks: UInt64, uniformTime: real): (c: Clock)
    ensures AccumulatorDrained(c) && c.accumulator == 0.0
    ensures !c.quit && c.t == 0.0
    ensures c.uniformTime - c.t == uniformTime && c.currentTicks == ticks
  {
    Clock(0.0, 0.0, false, uniformTime, ticks)
  }

  /**
   * Draining the event queue: the quit flag afterwards is set exactly when it
   * was already set or some polled event is a quit event. Other events are
   * consumed and ignored.
   */
  function PollEvents(quit: bool, events: seq<Event>): (q: bool)
    ensures q <==> quit || QuitEvent in events
    decreases |events|
  {
    if |events| == 0 then quit
    else PollEvents(if events[0].QuitEvent? then true else quit, events[1..])
  }

  /** Elapsed time in seconds between two counter readings, before clamping. */
  function Measured(newTicks: UInt64, oldTicks: UInt64, frequency: UInt64): (m: real)
    requires 0 < frequency
    ensures 0.0 <= m
  {
    SubUInt64(newTicks, oldTicks) as real / frequency as real
  }

  /**
   * The frame time added to the accumulator: the measured time, cut down to
   * `MaxFrameTime` when it is longer.
   */
  function FrameTime(newTicks: UInt64, oldTicks: UInt64, frequency: UInt64): (ft: real)
    requires 0 < frequency
    ensures 0.0 <= ft <= MaxFrameTime
    ensures ft <= Measured(newTicks, oldTicks, frequency)
    ensures ft == MaxFrameTime || ft == Measured(newTicks, oldTicks, frequency)
  {
    var m := Measured(newTicks, oldTicks, frequency);
    if m > MaxFrameTime then MaxFrameTime else m
  }

  /**
   * How many fixed steps drain `accumulator`, one step at a time: none when
   * quitting or when less than one step is due, otherwise the largest `n`
   * with `n * Dt <= accumulator`.
   */
  function DrainCount(accumulator: real, quit: bool): (n: nat)
    ensures quit || accumulator < Dt ==> n == 0
    ensures !quit && 0.0 <= accumulator ==> n as real * Dt <= accumulator < (n + 1) as real * Dt
    decreases if accumulator < Dt then 0 else (accumulator / Dt).Floor
  {
    if quit || accumulator < Dt then 0 else 1 + DrainCount(accumulator - Dt, quit)
  }

  /** The number of steps that drain a non-negative accumulator is `floor(accumulator / Dt)`. */
  lemma DrainCountIsFloor(accumulator: real, quit: bool)
    requires !quit && 0.0 <= accumulator
    ensures DrainCount(accumulator, quit) == (accumulator / Dt).Floor
  {
    var n := DrainCount(accumulator, quit);
    assert n as real <= accumulator / Dt < (n + 1) as real;
  }

  /** `Update`: one fixed step advances the shader's time uniform by `dt` and changes nothing else. */
  function Update(c: Clock, dt: real): (u: Clock)
    ensures u.uniformTime - c.uniformTime == dt
    ensures u.(uniformTime := c.uniformTime) == c
  {
    c.(uniformTime := c.uniformTime + dt)
  }

  /**
   * The inner loop: while a whole step is due and quit is not set, update,
   * advance `t` and consume one step from the accumulator.
   */
  method Drain(c: Clock) returns (d: Clock, n: nat)
    ensures n == DrainCount(c.accumulator, c.quit)
    ensures !c.quit ==> d.accumulator < Dt
    ensures 0.0 <= c.accumulator ==> 0.0 <= d.accumulator
    ensures d.t + d.accumulator == c.t + c.accumulator
    ensures d.t == c.t + n as real * Dt && d.uniformTime == c.uniformTime + n as real * Dt
    ensures d.quit == c.quit && d.currentTicks == c.currentTicks
  {
    d := c;
    n := 0;
    ghost var total := DrainCount(c.accumulator, c.quit);
    while d.accumulator >= Dt && !d.quit
      invariant d.quit == c.quit && d.currentTicks == c.currentTicks
      invariant d.accumulator == c.accumulator - n as real * Dt
      invariant d.t == c.t + n as real * Dt
      invariant d.uniformTime == c.uniformTime + n as real * Dt
      invariant 0 < n ==> 0.0 <= d.accumulator && !c.quit && Dt <= c.accumulator
      invariant n <= total
      decreases total - n
    {
      d := Update(d, Dt);
      d := d.(t := d.t + Dt, accumulator := d.accumulator - Dt);
      n := n + 1;
    }
  }

  /**
   * One outer iteration of the loop, as a function of the state before it,
   * the polled events and counter reading, and the counter frequency.
   */
  function Step(c: Clock, p: Poll, frequency: UInt64): (it: Iteration)
    requires 0 < frequency
    ensures it.clock.quit <==> c.quit || QuitEvent in p.events
    ensures it.clock.currentTicks == p.ticks
    ensures it.drew <==> it.updates >= 1
    ensures it.clock.quit ==> it.updates == 0
    ensures !it.clock.quit ==> it.clock.accumulator < Dt
    ensures 0.0 <= c.accumulator ==> 0.0 <= it.clock.accumulator
    ensures it.clock.t + it.clock.accumulator == c.t + c.accumulator + FrameTime(p.ticks, c.currentTicks, frequency)
    ensures it.clock.t == c.t + it.updates as real * Dt
    ensures it.clock.uniformTime == c.uniformTime + it.updates as real * Dt
  {
    var quit := PollEvents(c.quit, p.events);
    var accumulator := c.accumulator + FrameTime(p.ticks, c.currentTicks, frequency);
    var n := DrainCount(accumulator, quit);
    Iteration(
      Clock(c.t + n as real * Dt, accumulator - n as real * Dt, quit, c.uniformTime + n as real * Dt, p.ticks),
      n,
      accumulator >= Dt && !quit)
  }

  /**
   * The outer iteration written as the loop body is: poll loop, frame-time
   * measurement, inner drain loop, draw decision. It computes `Step`.
   */
  method RunIteration(c: Clock, p: Poll, frequency: UInt64) returns (it: Iteration)
    requires 0 < frequency
    ensures it == Step(c, p, frequency)
  {
    var quit := c.quit;
    var i := 0;
    while i < |p.events|
      invariant 0 <= i <= |p.events|
      invariant quit <==> c.quit || QuitEvent in p.events[..i]
    {
      if p.events[i].QuitEvent? {
        quit := true;
      }
      i := i + 1;
    }
    assert p.events[..i] == p.events;
    var frameTime := Measured(p.ticks, c.currentTicks, frequency);
    if frameTime > MaxFrameTime {
      frameTime := MaxFrameTime;
    }
    var accumulator := c.accumulator + frameTime;
    var updateThisLoop := accumulator >= Dt;
    var d, n := Drain(c.(quit := quit, accumulator := accumulator, currentTicks := p.ticks));
    it := Iteration(d, n, updateThisLoop && !quit);
  }

  /**
   * Once the loop state is past its first iteration: the accumulator is never
   * negative and, unless quit is set, holds less than one step.
   */
  predicate AccumulatorDrained(c: Clock)
  {
    0.0 <= c.accumulator && (!c.quit ==> c.accumulator < Dt)
  }

  /** The update count of an iteration is the whole number of steps in the accumulated time. */
  lemma StepRunsFloorUpdates(c: Clock, p: Poll, frequency: UInt64)
    requires 0 < frequency && 0.0 <= c.accumulator
    ensures var it := Step(c, p, frequency);
      var available := c.accumulator + FrameTime(p.ticks, c.currentTicks, frequency);
      it.updates == if it.clock.quit then 0 else (available / Dt).Floor
  {
    var it := Step(c, p, frequency);
    if !it.clock.quit {
      DrainCountIsFloor(c.accumulator + FrameTime(p.ticks, c.currentTicks, frequency), false);
    }
  }

  /**
   * Catch-up is bounded: from a drained accumulator one iteration runs at
   * most `MaxCatchUp` steps, however long the frame took.
   */
  lemma StepCatchUpBound(c: Clock, p: Poll, frequency: UInt64)
    requires 0 < frequency && AccumulatorDrained(c)
    ensures Step(c, p, frequency).updates <= MaxCatchUp
    ensures AccumulatorDrained(Step(c, p, frequency).clock)
  {
    var it := Step(c, p, frequency);
    assert it.updates as real * Dt <= c.accumulator + FrameTime(p.ticks, c.currentTicks, frequency);
  }

  /** The bound is reached: a quarter-second frame from an empty accumulator runs 25 steps. */
  lemma StepCatchUpBoundReached()
    ensures Step(Start(0, 0.0), Poll([], 1), 4).updates == MaxCatchUp
  {
    assert FrameTime(1, 0, 4) == MaxFrameTime;
  }

  /**
   * An iteration that polls a quit event runs no step and does not draw;
   * `t` and the time uniform stay as they were, and the frame time is still
   * added to the accumulator.
   */
  lemma StepOnQuit(c: Clock, p: Poll, frequency: UInt64)
    requires 0 < frequency && QuitEvent in p.events
    ensures var it := Step(c, p, frequency);
      && it.clock.quit && it.updates == 0 && !it.drew
      && it.clock.t == c.t && it.clock.uniformTime == c.uniformTime
      && it.clock.accumulator == c.accumulator + FrameTime(p.ticks, c.currentTicks, frequency)
  {
  }

  /** With a counter that has not wrapped, the frame time is the measured time, clamped to 0.25 s. */
  lemma FrameTimeMonotonicCounter(newTicks: UInt64, oldTicks: UInt64, frequency: UInt64)
    requires 0 < frequency && oldTicks <= newTicks
    ensures var measured := (newTicks - oldTicks) as real / frequency as real;
      FrameTime(newTicks, oldTicks, frequency) == if measured <= MaxFrameTime then measured else MaxFrameTime
  {
  }

  /** The totals of a run of the loop over a finite sequence of polls. */
  datatype RunResult = RunResult(clock: Clock, iterations: nat, updates: nat, draws: nat)

  /**
   * `Run`: outer iterations while quit is not set, one per poll; the model
   * stops early when the polls run out.
   */
  function Run(c: Clock, polls: seq<Poll>, frequency: UInt64): (r: RunResult)
    requires 0 < frequency
    ensures r.iterations <= |polls|
    ensures r.draws <= r.iterations && r.draws <= r.updates
    ensures r.iterations < |polls| ==> r.clock.quit
    ensures c.quit ==> r.iterations == 0 && r.clock == c
    ensures r.clock.t == c.t + r.updates as real * Dt
    ensures r.clock.uniformTime - r.clock.t == c.uniformTime - c.t
    ensures AccumulatorDrained(c) ==> AccumulatorDrained(r.clock)
    ensures AccumulatorDrained(c) ==> r.updates <= MaxCatchUp * r.iterations
    ensures AccumulatorDrained(c) ==> r.updates <= MaxCatchUp * r.draws
    decreases |polls|
  {
    if c.quit || |polls| == 0 then RunResult(c, 0, 0, 0)
    else
      var it := Step(c, polls[0], frequency);
      assert AccumulatorDrained(c) ==> it.updates <= MaxCatchUp && AccumulatorDrained(it.clock) by {
        if AccumulatorDrained(c) {
          StepCatchUpBound(c, polls[0], frequency);
        }
      }
      var rest := Run(it.clock, polls[1..], frequency);
      RunResult(rest.clock, rest.iterations + 1, rest.updates + it.updates,
                rest.draws + (if it.drew then 1 else 0))
  }

  /**
   * The loop as written: iterate while quit is not set and polls remain,
   * adding up steps and draws. It computes `Run`.
   */
  method RunLoop(c: Clock, polls: seq<Poll>, frequency: UInt64) returns (r: RunResult)
    requires 0 < frequency
    ensures r == Run(c, polls, frequency)
  {
    var clock := c;
    var k := 0;
    var updates: nat := 0;
    var draws: nat := 0;
    while !clock.quit && k < |polls|
      invariant 0 <= k <= |polls|
      invariant var rest := Run(clock, polls[k..], frequency);
        Run(c, polls, frequency) == RunResult(rest.clock, k + rest.iterations, updates + rest.updates, draws + rest.draws)
    {
      assert polls[k..][1..] == polls[k + 1..];
      var it := RunIteration(clock, polls[k], frequency);
      clock := it.clock;
      updates := updates + it.updates;
      if it.drew {
        draws := draws + 1;
      }
      k := k + 1;
    }
    r := RunResult(clock, k, updates, draws);
  }

  /**
   * From the start of the loop, with the time uniform starting at 0:
   * after N steps `t == N * Dt` and the time uniform equals `t`, and the
   * accumulator stays drained.
   */
  lemma RunFromStart(ticks: UInt64, polls: seq<Poll>, frequency: UInt64)
    requires 0 < frequency
    ensures var r := Run(Start(ticks, 0.0), polls, frequency);
      && r.clock.t == r.updates as real * Dt
      && r.clock.uniformTime == r.clock.t
      && AccumulatorDrained(r.clock)
      && r.updates <= MaxCatchUp * r.iterations
  {
  }

  /**
   * The loop ends at the first iteration that polls a quit event: it runs
   * exactly up to and including that iteration.
   */
  lemma {:induction false} RunStopsAtFirstQuit(c: Clock, polls: seq<Poll>, frequency: UInt64, i: nat)
    requires 0 < frequency && !c.quit
    requires i < |polls| && QuitEvent in polls[i].events
    requires forall j :: 0 <= j < i ==> QuitEvent !in polls[j].events
    ensures Run(c, polls, frequency).iterations == i + 1
    ensures Run(c, polls, frequency).clock.quit
    decreases i
  {
    var it := Step(c, polls[0], frequency);
    if i > 0 {
      RunStopsAtFirstQuit(it.clock, polls[1..], frequency, i - 1);
    }
  }

  /** Without a quit event the loop runs one iteration per poll and does not quit. */
  lemma {:induction false} RunWithoutQuit(c: Clock, polls: seq<Poll>, frequency: UInt64)
    requires 0 < frequency && !c.quit
    requires forall j :: 0 <= j < |polls| ==> QuitEvent !in polls[j].events
    ensures Run(c, polls, frequency).iterations == |polls|
    ensures !Run(c, polls, frequency).clock.quit
    decreases |polls|
  {
    if |polls| > 0 {
      RunWithoutQuit(Step(c, polls[0], frequency).clock, polls[1..], frequency);
    }
  }
}
