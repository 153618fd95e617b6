/**
 * The watering timer: a periodic platform timer fires `watering_task`, which
 * opens the hose valve for the configured duration, and a monitor task keeps
 * `time_left` up to date for the status endpoint. The platform (GPIO, esp_timer,
 * FreeRTOS tasks) is recorded as the sequence of calls made into it.
 */
module WaterTimer {
  import opened Machine

  const HOSE_PIN: int := 26
  const MICROS_PER_SECOND: int := 1000000
  /** The monitor task sleeps one second between two computations. */
  const MONITOR_PERIOD_MS: int := 1000

  /** A call into the platform, with the arguments the firmware passes. */
  datatype Call =
    | SetPinOutput(pin: int)
    | CreateWateringTimer
    | StartPeriodic(periodUs: u64)
    | ReadClock(us: u64)
    | CreateTimeLeftTask
    | SetLevel(pin: int, level: int)
    | Delay(ms: int)
    | DeleteTimeLeftTask
    | StopWateringTimer
    | DeleteWateringTimer

  /** `initialize_water_timer`: the clock is read right after the periodic timer is armed. */
  function InitCalls(interval: u64, now: u64): seq<Call>
  {
    [SetPinOutput(HOSE_PIN), CreateWateringTimer, StartPeriodic(interval), ReadClock(now), CreateTimeLeftTask]
  }

  /** `watering_task`: read the clock, open the valve, wait, close the valve. */
  function PulseCalls(now: u64, durationMs: int): seq<Call>
  {
    [ReadClock(now), SetLevel(HOSE_PIN, 1), Delay(durationMs), SetLevel(HOSE_PIN, 0)]
  }

  /** One round of `calculate_time_left`. */
  function MonitorCalls(now: u64): seq<Call>
  {
    [ReadClock(now), Delay(MONITOR_PERIOD_MS)]
  }

  /** `stop_timers`: the monitor task goes first, then the watering timer is stopped and deleted. */
  const STOP_CALLS: seq<Call> := [DeleteTimeLeftTask, StopWateringTimer, DeleteWateringTimer]

  /** The seconds left, computed in `uint64_t` as the monitor task does. */
  function TimeLeft(start: u64, interval: u64, current: u64): u64
  {
    ToU64(ToU64(start + interval) - current) / MICROS_PER_SECOND
  }

  /** Inside the current period the result is the whole seconds remaining, at most one period. */
  lemma TimeLeftWithinPeriod(start: u64, interval: u64, current: u64)
    requires start + interval < U64_MOD
    requires start <= current <= start + interval
    ensures TimeLeft(start, interval, current) == (start + interval - current) / MICROS_PER_SECOND
    ensures TimeLeft(start, interval, current) <= interval / MICROS_PER_SECOND
  {
    DivMonotone(start + interval - current, interval);
  }

  lemma DivMonotone(a: nat, b: nat)
    requires a <= b
    ensures a / MICROS_PER_SECOND <= b / MICROS_PER_SECOND
  {
  }

  /** Once the period has passed, the subtraction wraps and the result is huge rather than 0. */
  lemma TimeLeftWrapsWhenOverdue(start: u64, interval: u64, current: u64)
    requires start + interval < current
    ensures TimeLeft(start, interval, current)
              == (U64_MOD - (current - ToU64(start + interval))) / MICROS_PER_SECOND
    ensures TimeLeft(start, interval, current) >= (U64_MOD - current) / MICROS_PER_SECOND
  {
    DivMonotone(U64_MOD - current, U64_MOD - (current - ToU64(start + interval)));
  }

  /** One microsecond after the period ends the monitor reports about 584,942 years. */
  lemma OverdueExample()
    ensures TimeLeft(0, 20 * MICROS_PER_SECOND, 20 * MICROS_PER_SECOND + 1) == 18446744073709
  {
  }

  /**
   * What the timer code has set up. `handlesLive`: `watering_timer` and
   * `time_left_calc_handle` name a running periodic timer (of period `period`)
   * and a running monitor task. `orphans`: the periods of watering timers that
   * still fire, with their monitor tasks, but whose handles were overwritten by a
   * later start, so nothing can stop them. `staleStop`: `stop_timers` has run on
   * handles that named nothing live (deleting an already deleted task and timer).
   */
  datatype TimerState = TimerState(
    startTime: u64, currentTime: u64, timeLeft: u64,
    handlesLive: bool, period: u64, orphans: seq<u64>, staleStop: bool,
    calls: seq<Call>)

  /** The state at boot: the three globals are zero and nothing was created yet. */
  const BOOT: TimerState := TimerState(0, 0, 0, false, 0, [], false, [])

  /** After `initialize_water_timer`: a new timer and task; any running pair loses its handles. */
  function Initialized(s: TimerState, now: u64, interval: u64): TimerState
  {
    s.(handlesLive := true, period := interval,
       orphans := if s.handlesLive then s.orphans + [s.period] else s.orphans,
       startTime := now, calls := s.calls + InitCalls(interval, now))
  }

  /** After `stop_timers`: the pair the handles name is gone; on dead handles the stop is stale. */
  function Stopped(s: TimerState): TimerState
  {
    s.(handlesLive := false, staleStop := s.staleStop || !s.handlesLive, calls := s.calls + STOP_CALLS)
  }

  /** The watering timers (each with its monitor task) that are running. */
  function Running(s: TimerState): nat
  {
    |s.orphans| + if s.handlesLive then 1 else 0
  }

  /** A start adds one running timer; a stop removes one only if the handles named one. */
  lemma StartAndStopAccounting(s: TimerState, now: u64, interval: u64)
    ensures Running(Initialized(s, now, interval)) == Running(s) + 1
    ensures Running(Stopped(s)) == if s.handlesLive then Running(s) - 1 else Running(s)
    ensures Stopped(s).staleStop <==> s.staleStop || !s.handlesLive
  {
  }

  /** Stopping twice in a row deletes the task and the timer a second time. */
  lemma StopTwiceIsStale(s: TimerState)
    ensures !Stopped(s).handlesLive
    ensures Stopped(Stopped(s)).staleStop
    ensures Running(Stopped(Stopped(s))) == Running(Stopped(s))
  {
  }

  /**
   * Starting twice without a stop leaves the first timer firing at its period
   * with no handle: a later stop removes only the second, one keeps running.
   */
  lemma StartTwiceOrphans(s: TimerState, now1: u64, interval1: u64, now2: u64, interval2: u64)
    requires !s.handlesLive
    ensures var twice := Initialized(Initialized(s, now1, interval1), now2, interval2);
      && twice.orphans == s.orphans + [interval1]
      && twice.period == interval2
      && Running(Stopped(twice)) == Running(s) + 1
      && !Stopped(twice).staleStop == !s.staleStop
  {
  }

  /** A start on stopped handles followed by a stop leaves as many timers running as before. */
  lemma StartThenStopRestores(s: TimerState, now: u64, interval: u64)
    requires !s.handlesLive
    ensures Running(Stopped(Initialized(s, now, interval))) == Running(s)
    ensures Stopped(Initialized(s, now, interval)).staleStop == s.staleStop
  {
  }

  class Timer {
    var startTime: u64
    var currentTime: u64
    var timeLeft: u64
    var handlesLive: bool
    var period: u64
    var orphans: seq<u64>
    var staleStop: bool
    var calls: seq<Call>

    ghost function State(): TimerState
      reads this
    {
      TimerState(startTime, currentTime, timeLeft, handlesLive, period, orphans, staleStop, calls)
    }

    constructor ()
      ensures State() == BOOT
    {
      startTime, currentTime, timeLeft := 0, 0, 0;
      handlesLive, period, orphans, staleStop := false, 0, [], false;
      calls := [];
    }

    /** `initialize_water_timer`, with the clock reading `now` and the configured interval (µs). */
    method Initialize(now: u64, interval: u64)
      modifies this
      ensures State() == Initialized(old(State()), now, interval)
    {
      calls := calls + [SetPinOutput(HOSE_PIN), CreateWateringTimer, StartPeriodic(interval)];
      if handlesLive {
        orphans := orphans + [period];
      }
      handlesLive, period := true, interval;
      calls := calls + [ReadClock(now)];
      startTime := now;
      calls := calls + [CreateTimeLeftTask];
    }

    /** `watering_task`, fired by a periodic timer at `now`. */
    method WateringTask(now: u64, durationMs: int)
      modifies this
      ensures State() == old(State()).(startTime := now, calls := old(calls) + PulseCalls(now, durationMs))
    {
      calls := calls + [ReadClock(now)];
      startTime := now;
      calls := calls + [SetLevel(HOSE_PIN, 1)];
      calls := calls + [Delay(durationMs)];
      calls := calls + [SetLevel(HOSE_PIN, 0)];
    }

    /** One round of `calculate_time_left` at clock reading `now`. */
    method MonitorStep(now: u64, interval: u64)
      modifies this
      ensures State() == old(State()).(currentTime := now, timeLeft := TimeLeft(old(startTime), interval, now),
                                       calls := old(calls) + MonitorCalls(now))
    {
      calls := calls + [ReadClock(now)];
      currentTime := now;
      timeLeft := ((startTime + interval) % U64_MOD - currentTime) % U64_MOD / MICROS_PER_SECOND;
      calls := calls + [Delay(MONITOR_PERIOD_MS)];
    }

    /** `stop_timers`. */
    method StopTimers()
      modifies this
      ensures State() == Stopped(old(State()))
    {
      calls := calls + [DeleteTimeLeftTask];
      staleStop := staleStop || !handlesLive;
      calls := calls + [StopWateringTimer];
      handlesLive := false;
      calls := calls + [DeleteWateringTimer];
    }
  }

  // The valve output over any run of the timer code.

  /** The levels written to the hose pin, in order. */
  function Levels(calls: seq<Call>): seq<int>
  {
    if calls == [] then []
    else (if calls[0].SetLevel? && calls[0].pin == HOSE_PIN then [calls[0].level] else [])
         + Levels(calls[1..])
  }

  lemma {:induction false} LevelsOfConcat(a: seq<Call>, b: seq<Call>)
    ensures Levels(a + b) == Levels(a) + Levels(b)
  {
    if a != [] {
      assert (a + b)[0] == a[0];
      assert (a + b)[1..] == a[1..] + b;
      LevelsOfConcat(a[1..], b);
    } else {
      assert a + b == b;
    }
  }

  /** The operations of the Timer class, as values. */
  datatype Op =
    | Init(now: u64, interval: u64)
    | Water(now: u64, durationMs: int)
    | Monitor(now: u64)
    | Stop

  function OpCalls(op: Op): seq<Call>
  {
    match op
    case Init(now, interval) => InitCalls(interval, now)
    case Water(now, durationMs) => PulseCalls(now, durationMs)
    case Monitor(now) => MonitorCalls(now)
    case Stop => STOP_CALLS
  }

  /** The calls the Timer methods append when run in the order `ops`. */
  function Trace(ops: seq<Op>): seq<Call>
  {
    if ops == [] then [] else Trace(ops[..|ops| - 1]) + OpCalls(ops[|ops| - 1])
  }

  function Waterings(ops: seq<Op>): nat
  {
    if ops == [] then 0 else Waterings(ops[..|ops| - 1]) + (if ops[|ops| - 1].Water? then 1 else 0)
  }

  /** `n` openings of the valve, each followed by its closing. */
  function Pulses(n: nat): seq<int>
  {
    if n == 0 then [] else Pulses(n - 1) + [1, 0]
  }

  /**
   * Whatever the timer code does, the hose pin sees exactly one rise and one fall
   * per watering, in that order.
   */
  lemma {:induction false} ValveFollowsWaterings(ops: seq<Op>)
    ensures Levels(Trace(ops)) == Pulses(Waterings(ops))
  {
    if ops != [] {
      var init, op := ops[..|ops| - 1], ops[|ops| - 1];
      calc {
        Levels(Trace(ops));
        Levels(Trace(init) + OpCalls(op));
        { LevelsOfConcat(Trace(init), OpCalls(op)); }
        Levels(Trace(init)) + Levels(OpCalls(op));
        { ValveFollowsWaterings(init); LevelsOfOp(op); }
        Pulses(Waterings(init)) + (if op.Water? then [1, 0] else []);
      }
      if op.Water? {
        assert Waterings(ops) == Waterings(init) + 1;
      } else {
        assert Waterings(ops) == Waterings(init);
        assert Pulses(Waterings(init)) + [] == Pulses(Waterings(init));
      }
    }
  }

  /** So the last level written to the hose pin is always 0: the valve is left closed. */
  lemma ValveEndsClosed(ops: seq<Op>)
    ensures Levels(Trace(ops)) != [] ==> Levels(Trace(ops))[|Levels(Trace(ops))| - 1] == 0
  {
    ValveFollowsWaterings(ops);
    PulsesEndClosed(Waterings(ops));
  }

  lemma PulsesEndClosed(n: nat)
    ensures Pulses(n) != [] ==> Pulses(n)[|Pulses(n)| - 1] == 0
  {
    if n > 0 {
      assert Pulses(n) == Pulses(n - 1) + [1, 0];
    }
  }

  /** Only a watering writes to the pin: high, then low. */
  lemma LevelsOfOp(op: Op)
    ensures Levels(OpCalls(op)) == if op.Water? then [1, 0] else []
  {
    var c := OpCalls(op);
    match op
    case Init(now, interval) =>
      assert c == [c[0]] + [c[1]] + [c[2]] + [c[3]] + [c[4]];
      LevelsOfConcat([c[0]] + [c[1]] + [c[2]] + [c[3]], [c[4]]);
      LevelsOfConcat([c[0]] + [c[1]] + [c[2]], [c[3]]);
      LevelsOfConcat([c[0]] + [c[1]], [c[2]]);
      LevelsOfConcat([c[0]], [c[1]]);
    case Water(now, durationMs) =>
      assert c == [c[0]] + [c[1]] + [c[2]] + [c[3]];
      LevelsOfConcat([c[0]] + [c[1]] + [c[2]], [c[3]]);
      LevelsOfConcat([c[0]] + [c[1]], [c[2]]);
      LevelsOfConcat([c[0]], [c[1]]);
    case Monitor(now) =>
      assert c == [c[0]] + [c[1]];
      LevelsOfConcat([c[0]], [c[1]]);
    case Stop =>
      assert c == [c[0]] + [c[1]] + [c[2]];
      LevelsOfConcat([c[0]] + [c[1]], [c[2]]);
      LevelsOfConcat([c[0]], [c[1]]);
  }
}
