/** The single indicator LED of libraries/LED: a desired steady state
    (`enabled`), the level driven on the pin, and the heartbeat timer. */
module Leds {
  import opened Ints

  const HeartbeatIntervalMs := 5 * 1000
  /** The pin of an LED built by the no-argument constructor. */
  const NoPin := -1

  /** The levels `flash(times, _)` writes when the steady state is `steady`:
      for each blink the inverse of the steady level, then the steady level. */
  function FlashLevels(times: int, steady: bool): (levels: seq<bool>)
    decreases times
  {
    if times <= 0 then [] else FlashLevels(times - 1, steady) + [!steady, steady]
  }

  /** What `flash` writes: nothing for `times <= 0`, otherwise exactly
      `2 * times` levels, alternating inverse and steady, ending steady. */
  lemma {:induction false} FlashLevelsShape(times: int, steady: bool)
    ensures |FlashLevels(times, steady)| == if times <= 0 then 0 else 2 * times
    ensures forall k :: 0 <= k < |FlashLevels(times, steady)| ==>
              FlashLevels(times, steady)[k] == (if k % 2 == 0 then !steady else steady)
  {
    if times > 0 {
      FlashLevelsShape(times - 1, steady);
    }
  }

  class LED {
    var pin: int
    var lastHeartbeatTime: uint32
    var enabled: bool
    /** The level currently driven on the pin (HIGH is true). */
    var level: bool
    /** Every level written to the pin, oldest first. */
    ghost var writes: seq<bool>

    /** `LED(pin)`; `now` is `millis()` at construction. */
    constructor (pin: int, now: uint32)
      ensures this.pin == pin && lastHeartbeatTime == now
      ensures !enabled && !level && writes == []
    {
      this.pin := pin;
      lastHeartbeatTime := now;
      enabled := false;
      level := false;
      writes := [];
    }

    /** `LED()`: an LED with no pin assigned. */
    constructor Unassigned(now: uint32)
      ensures pin == NoPin && lastHeartbeatTime == now
      ensures !enabled && !level && writes == []
    {
      pin := NoPin;
      lastHeartbeatTime := now;
      enabled := false;
      level := false;
      writes := [];
    }

    /** `digitalWrite(_pin, high)`. */
    method Write(high: bool)
      modifies this
      ensures level == high && writes == old(writes) + [high]
      ensures pin == old(pin) && enabled == old(enabled)
      ensures lastHeartbeatTime == old(lastHeartbeatTime)
    {
      level := high;
      writes := writes + [high];
    }

    /** `setup()`: start with the LED off. */
    method Setup()
      modifies this
      ensures level == false && writes == old(writes) + [false]
      ensures pin == old(pin) && enabled == old(enabled)
      ensures lastHeartbeatTime == old(lastHeartbeatTime)
    {
      Write(false);
    }

    method On()
      modifies this
      ensures enabled && level && writes == old(writes) + [true]
      ensures pin == old(pin) && lastHeartbeatTime == old(lastHeartbeatTime)
    {
      enabled := true;
      Write(true);
    }

    method Off()
      modifies this
      ensures !enabled && !level && writes == old(writes) + [false]
      ensures pin == old(pin) && lastHeartbeatTime == old(lastHeartbeatTime)
    {
      enabled := false;
      Write(false);
    }

    /** Blink `times` times around the steady state; the delays are not modelled. */
    method Flash(times: int, wait: int)
      modifies this
      ensures writes == old(writes) + FlashLevels(times, enabled)
      ensures level == if times >= 1 then enabled else old(level)
      ensures enabled == old(enabled) && pin == old(pin)
      ensures lastHeartbeatTime == old(lastHeartbeatTime)
    {
      var i := 0;
      while i < times
        invariant times <= 0 ==> i == 0
        invariant times > 0 ==> 0 <= i <= times
        invariant writes == old(writes) + FlashLevels(i, enabled)
        invariant level == if i >= 1 then enabled else old(level)
        invariant enabled == old(enabled) && pin == old(pin)
        invariant lastHeartbeatTime == old(lastHeartbeatTime)
      {
        Write(!enabled);
        Write(enabled);
        i := i + 1;
      }
    }

    /** The "thinking" pattern: five quick blinks. */
    method Thinking()
      modifies this
      ensures writes == old(writes) + FlashLevels(5, enabled)
      ensures level == enabled
      ensures enabled == old(enabled) && pin == old(pin)
      ensures lastHeartbeatTime == old(lastHeartbeatTime)
    {
      Flash(5, 100);
    }

    /** The error/refusal pattern: three slow blinks. */
    method Error()
      modifies this
      ensures writes == old(writes) + FlashLevels(3, enabled)
      ensures level == enabled
      ensures enabled == old(enabled) && pin == old(pin)
      ensures lastHeartbeatTime == old(lastHeartbeatTime)
    {
      Flash(3, 500);
    }

    /** One blink at most every five seconds. */
    method Heartbeat(now: uint32)
      modifies this
      ensures var due := Elapsed(now, old(lastHeartbeatTime)) > HeartbeatIntervalMs;
              && lastHeartbeatTime == (if due then now else old(lastHeartbeatTime))
              && writes == old(writes) + (if due then FlashLevels(1, enabled) else [])
              && level == (if due then enabled else old(level))
      ensures enabled == old(enabled) && pin == old(pin)
    {
      if Elapsed(now, lastHeartbeatTime) > HeartbeatIntervalMs {
        lastHeartbeatTime := now;
        Flash(1, 250);
      }
    }
  }
}
