/** libraries/PumpSwitch: the On/Off pump state machine with a minimum-off
    interlock (overridden by the third start attempt), an automatic max-on
    cutoff, a toggle button and the elapsed-time counters sent to the base
    station.

    The behaviour is stated once, as pure step functions over `PumpState`
    (`StartStep`, `StopStep`, `CheckStep`); the `PumpSwitch` class is proved
    to follow them, and the lemmas below state what they promise. */
module Pump {
  import opened Ints
  import opened Leds

  const DefaultMaxOnMinutes := 2
  const DefaultMinOffMinutes := 2
  const StartAttemptsWindowMs := 60 * 1000
  const MinStartAttempts := 3

  // positions in the outgoing pump values
  const StateIndex := 0
  const SecondsIndex := 1
  const MinutesIndex := 2
  const HoursIndex := 3
  const DaysIndex := 4
  const TotalValues := 5

  const SecondsPerDay := 24 * 60 * 60
  /** The range of the counters: days are a `uint8_t`. */
  const DaysWrapSeconds := 256 * SecondsPerDay

  /** `_msToMinutes(ms)`: whole minutes in `ms` milliseconds. */
  function MsToMinutes(ms: uint32): (m: uint32)
    ensures m * 60000 <= ms < m * 60000 + 60000
  {
    var s := ms / 1000;
    assert s * 1000 <= ms < s * 1000 + 1000;
    var m := s / 60;
    assert m * 60 <= s < m * 60 + 60;
    m
  }

  /** The elapsed-time counters `_pumpValues[PUMP_DAYS .. PUMP_SECONDS]`. */
  datatype Clock = Clock(days: uint8, hours: uint8, minutes: uint8, seconds: uint8)

  const Zero := Clock(0, 0, 0, 0)

  predicate Bounded(c: Clock)
  {
    c.seconds < 60 && c.minutes < 60 && c.hours < 24
  }

  /** `_updateElapsedTime()` for `ms` milliseconds since the last transition:
      days are `elapsedHours / 24` truncated to 8 bits. */
  function ElapsedClock(ms: uint32): (c: Clock)
    ensures Bounded(c)
  {
    var seconds := ms / 1000;
    var minutes := seconds / 60;
    var hours := minutes / 60;
    Clock(Wrap8(hours / 24), hours % 24, minutes % 60, seconds % 60)
  }

  /** `getElapsedSeconds()`; the sum never overflows 32 bits. */
  function ClockSeconds(c: Clock): (s: uint32)
    ensures Bounded(c) ==> s < DaysWrapSeconds
  {
    c.seconds + c.minutes * 60 + c.hours * 60 * 60 + c.days * SecondsPerDay
  }

  /** The counters lose nothing: a `uint32_t` difference of milliseconds is
      under 50 days, so the day count never wraps, and `getElapsedSeconds()`
      is exactly `(now - _time) / 1000`. The elapsed time itself wraps with
      the 32-bit millisecond clock (`Elapsed`), after about 49.7 days. */
  lemma {:induction false} ElapsedClockSeconds(ms: uint32)
    ensures ElapsedClock(ms).days < 50
    ensures ClockSeconds(ElapsedClock(ms)) == ms / 1000
  {
    var s := ms / 1000;
    var m := s / 60;
    var h := m / 60;
    var d := h / 24;
    assert s == 60 * m + s % 60;
    assert m == 60 * h + m % 60;
    assert h == 24 * d + h % 24;
    var rest := (h % 24) * 3600 + (m % 60) * 60 + s % 60;
    assert 0 <= rest < SecondsPerDay;
    assert s == d * SecondsPerDay + rest;
    assert d == 256 * (d / 256) + d % 256;
    var low := (d % 256) * SecondsPerDay + rest;
    assert 0 <= low < DaysWrapSeconds;
    assert s == (d / 256) * DaysWrapSeconds + low;
    ModUnique(s, d / 256, low, DaysWrapSeconds);
    assert ClockSeconds(ElapsedClock(ms)) == low;
  }

  lemma ModUnique(x: int, q: int, r: int, n: int)
    requires 0 < n && 0 <= r < n && x == q * n + r
    ensures x % n == r
  {
    var k := x / n - q;
    assert x == (x / n) * n + x % n;
    assert k * n == r - x % n;
  }

  /** The abstract state of a pump switch. */
  datatype PumpState = PumpState(
    running: bool,
    clock: Clock,
    time: uint32,             // `_time`: `millis()` at the last transition
    attempts: int,            // `_startAttemptCount`
    lastAttemptTime: uint32)  // `_lastStartAttemptTime`

  /** What a call did. */
  datatype Transition = Unchanged | Refused | Started | Stopped

  /** The start/stop callbacks that actuate the pump relay. */
  datatype Callback = StartPump | StopPump

  function CallbacksOf(t: Transition): seq<Callback>
  {
    match t
    case Started => [StartPump]
    case Stopped => [StopPump]
    case _ => []
  }

  /** The LED levels a transition writes: the error flash for a refusal
      (always while off), the thinking flash and then the new steady level
      for a start or a stop. */
  function BlinksOf(t: Transition): seq<bool>
  {
    match t
    case Unchanged => []
    case Refused => FlashLevels(3, false)
    case Started => FlashLevels(5, false) + [true]
    case Stopped => FlashLevels(5, true) + [false]
  }

  /** `_resetPumpValues(running)`: a transition at `now`. */
  function Reset(s: PumpState, running: bool, now: uint32): PumpState
  {
    s.(running := running, clock := Zero, time := now)
  }

  /** `start()`. */
  function StartStep(s: PumpState, now: uint32, minOffMinutes: int): (PumpState, Transition)
  {
    if s.running then (s, Unchanged)
    else
      var offMinutes := MsToMinutes(Elapsed(now, s.time));
      if s.time != 0 && minOffMinutes > offMinutes then
        var inWindow := s.lastAttemptTime == 0 || Elapsed(now, s.lastAttemptTime) < StartAttemptsWindowMs;
        var last := if inWindow then s.lastAttemptTime else now;
        var count := if inWindow then s.attempts + 1 else 1;
        if MinStartAttempts > count then (s.(attempts := count, lastAttemptTime := last), Refused)
        else (Reset(s.(attempts := 0, lastAttemptTime := 0), true, now), Started)
      else (Reset(s, true, now), Started)
  }

  /** `stop()`: there is no minimum-on guard, so it never refuses. */
  function StopStep(s: PumpState, now: uint32): (PumpState, Transition)
  {
    if !s.running then (s, Unchanged) else (Reset(s, false, now), Stopped)
  }

  /** The button part of `check()`: a press toggles the pump. */
  function ButtonStep(s: PumpState, now: uint32, fell: bool, minOffMinutes: int): (PumpState, Transition)
  {
    if !fell then (s, Unchanged)
    else if s.running then StopStep(s, now)
    else StartStep(s, now, minOffMinutes)
  }

  /** The safety part of `check()`: stop a pump that has run `maxOnMinutes`. */
  function CutoffStep(s: PumpState, now: uint32, maxOnMinutes: int): (PumpState, Transition)
  {
    if s.running && maxOnMinutes <= MsToMinutes(Elapsed(now, s.time)) then StopStep(s, now)
    else (s, Unchanged)
  }

  /** `check()`: refresh the counters, toggle on a button press, then cut
      the pump off once it has run `maxOnMinutes`. The two transitions are
      the button's and the cutoff's. */
  function CheckStep(s: PumpState, now: uint32, fell: bool, maxOnMinutes: int, minOffMinutes: int)
    : (PumpState, Transition, Transition)
  {
    var s1 := s.(clock := ElapsedClock(Elapsed(now, s.time)));
    var b := ButtonStep(s1, now, fell, minOffMinutes);
    var c := CutoffStep(b.0, now, maxOnMinutes);
    (c.0, b.1, c.1)
  }

  /** Redundant calls are safe: `start()` while on and `stop()` while off
      change nothing and run no callback. */
  lemma RedundantCallsChangeNothing(s: PumpState, now: uint32, minOffMinutes: int)
    ensures s.running ==> StartStep(s, now, minOffMinutes) == (s, Unchanged)
    ensures !s.running ==> StopStep(s, now) == (s, Unchanged)
    ensures CallbacksOf(Unchanged) == [] && BlinksOf(Unchanged) == []
  {
  }

  /** A `start()` from off that proceeds: running, counters zero, `_time`
      is now, the start callback once and never the stop callback. */
  lemma StartEffects(s: PumpState, now: uint32, minOffMinutes: int)
    requires !s.running
    ensures var (s', t) := StartStep(s, now, minOffMinutes);
            && (t == Started || t == Refused)
            && (t == Started ==> s'.running && s'.clock == Zero && s'.time == now
                                 && CallbacksOf(t) == [StartPump])
            && (t == Refused ==> s'.running == s.running && s'.clock == s.clock && s'.time == s.time
                                 && CallbacksOf(t) == [])
  {
  }

  /** A `stop()` from on always proceeds: stopped, counters zero, `_time`
      is now and the stop callback once. */
  lemma StopEffects(s: PumpState, now: uint32)
    requires s.running
    ensures var (s', t) := StopStep(s, now);
            && t == Stopped && !s'.running && s'.clock == Zero && s'.time == now
            && s'.attempts == s.attempts && s'.lastAttemptTime == s.lastAttemptTime
            && CallbacksOf(t) == [StopPump]
  {
  }

  /** Within the minimum-off time (and with `_time != 0`) a start attempt is
      counted; it is refused while the count stays below three, and the
      attempt that reaches three overrides the interlock and clears the count. */
  lemma Interlock(s: PumpState, now: uint32, minOffMinutes: int)
    requires !s.running && s.time != 0 && MsToMinutes(Elapsed(now, s.time)) < minOffMinutes
    requires s.lastAttemptTime == 0
    ensures var (s', t) := StartStep(s, now, minOffMinutes);
            && (t == Refused <==> s.attempts + 1 < MinStartAttempts)
            && (t == Refused ==> s' == s.(attempts := s.attempts + 1))
            && (t != Refused ==> t == Started && s'.attempts == 0 && s'.lastAttemptTime == 0)
  {
  }

  /** With `_time == 0`, or once the minimum-off time has passed, the
      interlock does not apply and a start from off proceeds. */
  lemma NoInterlock(s: PumpState, now: uint32, minOffMinutes: int)
    requires !s.running
    requires s.time == 0 || minOffMinutes <= MsToMinutes(Elapsed(now, s.time))
    ensures StartStep(s, now, minOffMinutes) == (Reset(s, true, now), Started)
  {
  }

  /** `_lastStartAttemptTime` is only assigned when it is nonzero, so a zero
      stays zero: the 60-second window is never opened and every refused
      attempt counts, however far apart the attempts are. */
  lemma AttemptWindowNeverOpens(s: PumpState, now: uint32, minOffMinutes: int)
    requires s.lastAttemptTime == 0
    ensures StartStep(s, now, minOffMinutes).0.lastAttemptTime == 0
    ensures StartStep(s, now, minOffMinutes).1 == Refused ==>
              StartStep(s, now, minOffMinutes).0.attempts == s.attempts + 1
  {
  }

  /** Three rapid presses after a stop: the first two are refused, the third
      starts the pump and leaves no attempts counted. */
  lemma {:induction false} ThirdAttemptOverrides(s: PumpState, t1: uint32, t2: uint32, t3: uint32, minOffMinutes: int)
    requires !s.running && s.time != 0 && s.attempts == 0 && s.lastAttemptTime == 0
    requires MsToMinutes(Elapsed(t1, s.time)) < minOffMinutes
    requires MsToMinutes(Elapsed(t2, s.time)) < minOffMinutes
    requires MsToMinutes(Elapsed(t3, s.time)) < minOffMinutes
    ensures var (a, r1) := StartStep(s, t1, minOffMinutes);
            var (b, r2) := StartStep(a, t2, minOffMinutes);
            var (c, r3) := StartStep(b, t3, minOffMinutes);
            && r1 == Refused && r2 == Refused && r3 == Started
            && c.running && c.time == t3 && c.clock == Zero && c.attempts == 0
  {
    Interlock(s, t1, minOffMinutes);
    var a := StartStep(s, t1, minOffMinutes).0;
    Interlock(a, t2, minOffMinutes);
    var b := StartStep(a, t2, minOffMinutes).0;
    Interlock(b, t3, minOffMinutes);
  }

  /** After `check()` the pump is never on past its maximum run time; a button
      press while on always stops it; without a press, a running pump keeps
      running exactly while it is under the maximum. */
  lemma CheckCutoff(s: PumpState, now: uint32, fell: bool, maxOnMinutes: int, minOffMinutes: int)
    ensures var (s', b, c) := CheckStep(s, now, fell, maxOnMinutes, minOffMinutes);
            && (s'.running ==> MsToMinutes(Elapsed(now, s'.time)) < maxOnMinutes)
            && (fell && s.running ==> b == Stopped && !s'.running && c == Unchanged)
            && (!fell && s.running ==>
                  (s'.running <==> MsToMinutes(Elapsed(now, s.time)) < maxOnMinutes)
                  && (c == Stopped <==> !s'.running))
  {
  }

  class PumpSwitch {
    const buttonPin: int
    const led: LED
    const pumpValues: array<uint8>
    var time: uint32
    var lastStartAttemptTime: uint32
    var startAttemptCount: int
    const maxOnMinutes: int
    const minOffMinutes: int
    /** Every invocation of the start/stop callbacks, oldest first. */
    ghost var callbacks: seq<Callback>

    /** The counters are in range, the LED's steady state is the pump's,
        fewer than three start attempts are ever counted, and the attempt
        time is never recorded (see `AttemptWindowNeverOpens`). */
    ghost predicate Valid()
      reads this, pumpValues, led
    {
      && pumpValues.Length == TotalValues
      && pumpValues[StateIndex] <= 1
      && Bounded(State().clock)
      && led.enabled == State().running
      && 0 <= startAttemptCount < MinStartAttempts
      && lastStartAttemptTime == 0
      && 0 <= maxOnMinutes < 0x8000 && 0 <= minOffMinutes < 0x8000
    }

    function State(): PumpState
      reads this, pumpValues
      requires pumpValues.Length == TotalValues
    {
      PumpState(
        pumpValues[StateIndex] != 0,
        Clock(pumpValues[DaysIndex], pumpValues[HoursIndex], pumpValues[MinutesIndex], pumpValues[SecondsIndex]),
        time, startAttemptCount, lastStartAttemptTime)
    }

    /** `PumpSwitch(buttonPin, ledPin, start, stop)`: starts off, with `_time`
        set by `_off()` to `now`. */
    constructor (buttonPin: int, ledPin: int, now: uint32)
      ensures Valid() && fresh(pumpValues) && fresh(led)
      ensures State() == PumpState(false, Zero, now, 0, 0)
      ensures maxOnMinutes == DefaultMaxOnMinutes && minOffMinutes == DefaultMinOffMinutes
      ensures this.buttonPin == buttonPin && led.pin == ledPin && led.writes == []
      ensures callbacks == []
    {
      this.buttonPin := buttonPin;
      led := new LED(ledPin, now);
      pumpValues := new uint8[TotalValues];
      time := 0;
      lastStartAttemptTime := 0;
      startAttemptCount := 0;
      maxOnMinutes := DefaultMaxOnMinutes;
      minOffMinutes := DefaultMinOffMinutes;
      callbacks := [];
      new;
      ResetPumpValues(false, now);
    }

    function IsOn(): (on: bool)
      reads this, pumpValues
      requires pumpValues.Length == TotalValues
      ensures on == State().running
    {
      pumpValues[StateIndex] != 0
    }

    function IsOff(): (off: bool)
      reads this, pumpValues
      requires pumpValues.Length == TotalValues
      ensures off == !State().running
    {
      !IsOn()
    }

    /** `getElapsedSeconds()`: the counters as seconds. */
    function ElapsedSeconds(): (seconds: uint32)
      reads this, pumpValues
      requires pumpValues.Length == TotalValues
      ensures seconds == ClockSeconds(State().clock)
    {
      pumpValues[SecondsIndex] as int + pumpValues[MinutesIndex] as int * 60
        + pumpValues[HoursIndex] as int * 60 * 60 + pumpValues[DaysIndex] as int * 60 * 60 * 24
    }

    /** `_resetPumpValues(running)`. */
    method ResetPumpValues(running: bool, now: uint32)
      requires pumpValues.Length == TotalValues
      modifies this`time, pumpValues
      ensures State() == Reset(old(State()), running, now)
      ensures pumpValues[StateIndex] == if running then 1 else 0
    {
      time := now;
      pumpValues[StateIndex] := if running then 1 else 0;
      pumpValues[DaysIndex] := 0;
      pumpValues[HoursIndex] := 0;
      pumpValues[MinutesIndex] := 0;
      pumpValues[SecondsIndex] := 0;
    }

    /** `_updateElapsedTime()`. */
    method UpdateElapsedTime(now: uint32)
      requires pumpValues.Length == TotalValues
      modifies pumpValues
      ensures State() == old(State()).(clock := ElapsedClock(Elapsed(now, time)))
      ensures pumpValues[StateIndex] == old(pumpValues[StateIndex])
    {
      var elapsedSeconds := Elapsed(now, time) / 1000;
      var elapsedMinutes := elapsedSeconds / 60;
      var elapsedHours := elapsedMinutes / 60;
      var elapsedDays := Wrap8(elapsedHours / 24);
      pumpValues[DaysIndex] := elapsedDays;
      pumpValues[HoursIndex] := elapsedHours % 24;
      pumpValues[MinutesIndex] := elapsedMinutes % 60;
      pumpValues[SecondsIndex] := elapsedSeconds % 60;
    }

    /** `start()`. */
    method Start(now: uint32)
      requires Valid()
      modifies this, pumpValues, led
      ensures Valid()
      ensures var (s', t) := StartStep(old(State()), now, minOffMinutes);
              && State() == s'
              && callbacks == old(callbacks) + CallbacksOf(t)
              && led.writes == old(led.writes) + BlinksOf(t)
      ensures old(lastStartAttemptTime) == 0 ==> lastStartAttemptTime == 0
      ensures led.pin == old(led.pin) && led.lastHeartbeatTime == old(led.lastHeartbeatTime)
    {
      if IsOn() {
        return;
      }
      var offMinutes := MsToMinutes(Elapsed(now, time));
      var refused := false;
      if time != 0 && minOffMinutes > offMinutes {
        // inside the window count the attempt, otherwise open a new window
        var inWindow := lastStartAttemptTime == 0 || Elapsed(now, lastStartAttemptTime) < StartAttemptsWindowMs;
        var windowStart := now;
        if inWindow {
          windowStart := lastStartAttemptTime;
        }
        lastStartAttemptTime := windowStart;
        startAttemptCount := if inWindow then startAttemptCount + 1 else 1;
        if MinStartAttempts > startAttemptCount {
          led.Error();
          refused := true;
        } else {
          lastStartAttemptTime := 0;
          startAttemptCount := 0;
        }
      }
      if !refused {
        led.Thinking();
        led.On();
        ResetPumpValues(true, now);
        callbacks := callbacks + [StartPump];
      }
    }

    /** `stop()`. */
    method Stop(now: uint32)
      requires Valid()
      modifies this, pumpValues, led
      ensures Valid()
      ensures var (s', t) := StopStep(old(State()), now);
              && State() == s'
              && callbacks == old(callbacks) + CallbacksOf(t)
              && led.writes == old(led.writes) + BlinksOf(t)
      ensures led.pin == old(led.pin) && led.lastHeartbeatTime == old(led.lastHeartbeatTime)
    {
      if IsOff() {
        return;
      }
      led.Thinking();
      led.Off();
      ResetPumpValues(false, now);
      callbacks := callbacks + [StopPump];
    }

    /** `check()`, with `fell` standing for `_debouncer.update() && _debouncer.fell()`. */
    method Check(now: uint32, fell: bool)
      requires Valid()
      modifies this, pumpValues, led
      ensures Valid()
      ensures var (s', b, c) := CheckStep(old(State()), now, fell, maxOnMinutes, minOffMinutes);
              var due := Elapsed(now, old(led.lastHeartbeatTime)) > HeartbeatIntervalMs;
              && State() == s'
              && callbacks == old(callbacks) + CallbacksOf(b) + CallbacksOf(c)
              && led.writes == old(led.writes) + BlinksOf(b) + BlinksOf(c)
                               + (if due then FlashLevels(1, s'.running) else [])
              && led.lastHeartbeatTime == (if due then now else old(led.lastHeartbeatTime))
      ensures led.pin == old(led.pin)
    {
      ghost var s0 := State();
      UpdateElapsedTime(now);
      ghost var s1 := State();
      assert s1 == s0.(clock := ElapsedClock(Elapsed(now, s0.time)));
      ghost var w1, k1 := led.writes, callbacks;
      if fell {
        if IsOn() {
          Stop(now);
        } else {
          Start(now);
        }
      }
      ghost var b := ButtonStep(s1, now, fell, minOffMinutes);
      assert State() == b.0;
      assert led.writes == w1 + BlinksOf(b.1) && callbacks == k1 + CallbacksOf(b.1);
      ghost var w2, k2 := led.writes, callbacks;
      if IsOn() {
        var onMinutes := MsToMinutes(Elapsed(now, time));
        if maxOnMinutes <= onMinutes {
          Stop(now);
        }
      }
      ghost var c := CutoffStep(b.0, now, maxOnMinutes);
      assert State() == c.0;
      assert led.writes == w2 + BlinksOf(c.1) && callbacks == k2 + CallbacksOf(c.1);
      led.Heartbeat(now);
    }
  }
}
