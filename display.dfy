/** libraries/Display: the base station's front panel. It turns the pump
    switch's state and the tank sensors' inputs into the scrolling status
    message, the remaining-time counter, one bargraph per tank and the
    status LEDs. The LEDs are driven through `flashing()` and `check()`,
    which the LED library does not define, so each one is modelled by the
    `Indicator` it was last told to show. */
module Displays {
  import opened Ints
  import opened Tanks
  import opened Bargraphs
  import opened Counters
  import opened Messages
  import opened Pump

  const TotalValveLeds := 5
  const TotalBargraphs := 3
  const StatusIntervalMs := 15 * 1000
  /** `setBlock` is called without a block count: six blocks of four bars. */
  const BlocksPerBar: uint8 := 6

  /** What one LED was last told to do: off, on, or flashing. */
  datatype Indicator = Dark | Steady | Blinking

  /** `_updateLateLEDs` for one peer: lit while it reports in time, flashing
      once it is late (whether or not it ever reported), dark before the
      first report. */
  function LateIndicator(ready: bool, late: bool): (i: Indicator)
    ensures i == Blinking <==> late
    ensures i == Steady <==> ready && !late
    ensures i == Dark <==> !ready && !late
  {
    if ready && !late then Steady else if late then Blinking else Dark
  }

  /** `_updateValveLEDs` for one valve: dark until the sensors have reported,
      then flashing while the valve is open and lit while it is closed. */
  function ValveIndicator(ready: bool, open: bool): (i: Indicator)
    ensures i == Dark <==> !ready
    ensures i == Blinking <==> ready && open
    ensures i == Steady <==> ready && !open
  {
    if ready then (if open then Blinking else Steady) else Dark
  }

  // ---------------------------------------------------------------- bargraphs

  /** The sticky fill after walking the floats of a tank from the top (float
      1, index 0) down to index `f`. */
  function Filled(floats: seq<bool>, f: nat): bool
    requires f < |floats|
  {
    floats[f] || (0 < f && Filled(floats, f - 1))
  }

  /** The block of a float is filled exactly when that float or one above it
      is on; in particular the fill never goes out again further down. */
  lemma {:induction false} FilledMeans(floats: seq<bool>, f: nat)
    requires f < |floats|
    ensures Filled(floats, f) <==> exists k :: 0 <= k <= f && floats[k]
    ensures forall g :: f <= g < |floats| && Filled(floats, f) ==> Filled(floats, g)
  {
    if 0 < f {
      FilledMeans(floats, f - 1);
    }
    forall g | f <= g < |floats| && Filled(floats, f)
      ensures Filled(floats, g)
    {
      FilledStaysOn(floats, f, g);
    }
  }

  lemma {:induction false} FilledStaysOn(floats: seq<bool>, f: nat, g: nat)
    requires f <= g < |floats| && Filled(floats, f)
    ensures Filled(floats, g)
    decreases g - f
  {
    if f < g {
      FilledStaysOn(floats, f, g - 1);
    }
  }

  /** Bar `i` of a tank's bargraph for its six floats: bar `4f` is the marker
      of float `f`, the next three bars show the sticky fill. */
  function BarColour(floats: seq<bool>, i: nat): Colour
    requires |floats| == FloatsPerTank && i < TotalBars
  {
    if i % 4 == 0 then Marker(floats[i / 4]) else FillColour(Filled(floats, i / 4))
  }

  /** The 24 bars `colours` show the six floats of a tank. */
  ghost predicate ShowsTank(colours: seq<Colour>, floats: seq<bool>)
  {
    && |colours| == TotalBars && |floats| == FloatsPerTank
    && forall i :: 0 <= i < TotalBars ==> colours[i] == BarColour(floats, i)
  }

  /** Bars `4f .. 4f + 3` make up block `f`; the first of them is its marker. */
  lemma BlockOf(i: nat, f: nat)
    requires 4 * f <= i < 4 * f + 4
    ensures i / 4 == f && (i % 4 == 0 <==> i == 4 * f)
  {
  }

  /** What a tank's bargraph tells apart: each marker is green exactly when its
      own float is on, and a bar after a marker is yellow exactly when some
      float at or above that marker's float is on, and off otherwise. */
  lemma TankBarShows(colours: seq<Colour>, floats: seq<bool>, f: nat)
    requires ShowsTank(colours, floats) && f < FloatsPerTank
    ensures colours[4 * f] == (if floats[f] then Green else Red)
    ensures forall i :: 4 * f < i < 4 * f + 4 ==>
              (colours[i] == Yellow <==> exists k :: 0 <= k <= f && floats[k])
    ensures forall i :: 4 * f < i < 4 * f + 4 ==> colours[i] in {Yellow, Off}
  {
    FilledMeans(floats, f);
    assert colours[4 * f] == BarColour(floats, 4 * f);
    forall i | 4 * f < i < 4 * f + 4
      ensures colours[i] == FillColour(Filled(floats, f))
    {
      assert i / 4 == f && i % 4 != 0;
      assert colours[i] == BarColour(floats, i);
    }
  }

  /** The float states of tank `t` (1-based) in the inputs, top float first. */
  function TankFloats(inputs: seq<uint8>, t: int): (floats: seq<bool>)
    requires |inputs| == TotalInputs
    ensures |floats| == FloatsPerTank
  {
    seq(FloatsPerTank, f requires 0 <= f < FloatsPerTank => FloatOn(inputs, t, f + 1))
  }

  /** The inner loop of `_updateBars` for tank `t`: walk its floats from the
      top, setting each block with the sticky fill. */
  method DrawTank(sensors: TankSensors, bar: Bargraph, t: uint8)
    requires sensors.Valid() && bar.Valid()
    modifies bar.colours
    ensures ShowsTank(bar.colours[..], TankFloats(sensors.sensors[..], t))
  {
    ghost var floats := TankFloats(sensors.sensors[..], t);
    var fill := false;
    var f: uint8 := 0;
    while f < FloatsPerTank
      invariant 0 <= f <= FloatsPerTank
      invariant fill == (0 < f && Filled(floats, f - 1))
      invariant forall i :: 0 <= i < 4 * f ==> bar.colours[i] == BarColour(floats, i)
    {
      var state := sensors.FloatState(t, f + 1);
      assert state == floats[f];
      if state {
        fill := true;
      }
      assert fill == Filled(floats, f);
      assert BlockSize(BlocksPerBar) == 4;
      bar.SetBlock(state, fill, f, BlocksPerBar);
      forall i | 4 * f <= i < 4 * f + 4
        ensures bar.colours[i] == BarColour(floats, i)
      {
        BlockOf(i, f as nat);
      }
      f := f + 1;
    }
  }

  // ------------------------------------------------------------ status text

  /** The units `_scrollStatus` prints, largest first. */
  datatype Unit = Days | Hours | Minutes | Seconds

  function Rank(u: Unit): nat
  {
    match u
    case Days => 3
    case Hours => 2
    case Minutes => 1
    case Seconds => 0
  }

  /** The pump's elapsed-time counter for unit `u`. */
  function Amount(c: Clock, u: Unit): uint8
  {
    match u
    case Days => c.days
    case Hours => c.hours
    case Minutes => c.minutes
    case Seconds => c.seconds
  }

  /** The next smaller unit; seconds have none. */
  function Smaller(u: Unit): (v: Unit)
    requires u != Seconds
    ensures Rank(v) + 1 == Rank(u)
  {
    match u
    case Days => Hours
    case Hours => Minutes
    case Minutes => Seconds
  }

  /** The first of the two durations in the status: the largest unit whose
      counter is not zero, but never smaller than minutes. */
  function LeadingUnit(c: Clock): (u: Unit)
    ensures Rank(Minutes) <= Rank(u)
    ensures u == Minutes || Amount(c, u) != 0
    ensures forall v :: Rank(u) < Rank(v) ==> Amount(c, v) == 0
  {
    if c.days != 0 then Days else if c.hours != 0 then Hours else Minutes
  }

  function UnitName(u: Unit): string
  {
    match u
    case Days => "DAYS"
    case Hours => "HRS"
    case Minutes => "MIN"
    case Seconds => "SEC"
  }

  /** What `snprintf` into a buffer of `size` bytes keeps of `s`: at most
      `size - 1` characters and the terminating NUL. */
  function Snprintf(s: string, size: nat): (r: string)
    requires 0 < size
    ensures |r| < size && r <= s
    ensures |s| < size ==> r == s
    ensures size <= |s| ==> r == s[..size - 1]
  {
    if |s| < size then s else s[..size - 1]
  }

  /** `%u`: the decimal digits of `n`, most significant first. */
  function Decimal(n: nat): (s: string)
    ensures 1 <= |s|
    ensures forall k :: 0 <= k < |s| ==> '0' <= s[k] <= '9'
    ensures n < 10 ==> |s| == 1
    ensures n < 100 ==> |s| <= 2
    ensures n < 1000 ==> |s| <= 3
  {
    if n < 10 then [('0' as int + n) as char]
    else Decimal(n / 10) + [('0' as int + n % 10) as char]
  }

  /** Reads a string of decimal digits back as a number. */
  function DecimalValue(s: string): int
  {
    if s == [] then 0 else 10 * DecimalValue(s[..|s| - 1]) + (s[|s| - 1] as int - '0' as int)
  }

  /** `%u` loses nothing: its digits read back as the number printed. */
  lemma {:induction false} DecimalRoundTrip(n: nat)
    ensures DecimalValue(Decimal(n)) == n
  {
    var s := Decimal(n);
    if 10 <= n {
      DecimalRoundTrip(n / 10);
      assert s[..|s| - 1] == Decimal(n / 10);
    }
  }

  /** One `snprintf(duration, 9, "%u UNIT", value)`. */
  function DurationText(value: uint8, u: Unit): string
  {
    Snprintf(Decimal(value) + " " + UnitName(u), 9)
  }

  /** The status line `_scrollStatus` builds into its 34-byte buffer. */
  function StatusText(on: bool, c: Clock): string
  {
    var lead := LeadingUnit(c);
    var next := Smaller(lead);
    var state := Snprintf(if on then "ON" else "OFF", 4);
    Snprintf("PUMP STATUS " + state + " " + DurationText(Amount(c, lead), lead) + " "
      + DurationText(Amount(c, next), next), 34)
  }

  /** A duration never needs more than the eight characters its buffer
      holds ("255 DAYS"), so `snprintf` keeps all of it. */
  lemma DurationTextFits(value: uint8, u: Unit)
    ensures DurationText(value, u) == Decimal(value) + " " + UnitName(u)
    ensures |DurationText(value, u)| <= 8
    ensures forall k :: 0 <= k < |DurationText(value, u)| ==> DurationText(value, u)[k] != '\0'
  {
    var s := Decimal(value) + " " + UnitName(u);
    assert |UnitName(u)| <= 4;
    assert |s| <= 8;
    assert forall k :: 0 <= k < |s| ==> s[k] != '\0' by {
      forall k | 0 <= k < |s|
        ensures s[k] != '\0'
      {
        if k < |Decimal(value)| {
          assert s[k] == Decimal(value)[k];
        }
      }
    }
  }

  /** The status line untruncated: the pump state, then the leading unit and
      the next smaller one, each with its full counter value. */
  function StatusLine(on: bool, c: Clock): string
  {
    var lead := LeadingUnit(c);
    var next := Smaller(lead);
    "PUMP STATUS " + (if on then "ON" else "OFF") + " " + DurationText(Amount(c, lead), lead) + " "
      + DurationText(Amount(c, next), next)
  }

  /** None of the `snprintf` calls of the status line truncates: the status
      is the full line, short enough for `setMessage`, and holds no NUL. */
  lemma StatusTextFits(on: bool, c: Clock)
    ensures StatusText(on, c) == StatusLine(on, c)
    ensures |StatusText(on, c)| <= 33 < MaxSize - 1
    ensures forall k :: 0 <= k < |StatusText(on, c)| ==> StatusText(on, c)[k] != '\0'
  {
    var lead := LeadingUnit(c);
    var next := Smaller(lead);
    var d1 := DurationText(Amount(c, lead), lead);
    var d2 := DurationText(Amount(c, next), next);
    DurationTextFits(Amount(c, lead), lead);
    DurationTextFits(Amount(c, next), next);
    var state := if on then "ON" else "OFF";
    assert Snprintf(state, 4) == state;
    var head := "PUMP STATUS " + state + " ";
    var line := head + d1 + " " + d2;
    assert line == StatusLine(on, c);
    assert |line| <= 33;
    assert StatusText(on, c) == line;
    forall k | 0 <= k < |line|
      ensures line[k] != '\0'
    {
      if k < |head| {
        assert line[k] == head[k];
      } else if k < |head| + |d1| {
        assert line[k] == d1[k - |head|];
      } else if k == |head| + |d1| {
        assert line[k] == ' ';
      } else {
        assert line[k] == d2[k - |head| - |d1| - 1];
      }
    }
  }

  /** `_updateCounter`: the remaining run time `maxOn * 60 - elapsed`,
      computed in `unsigned long` and stored in an `int32_t`. */
  function RemainingSeconds(maxOnMinutes: int, elapsedSeconds: uint32): (r: int32)
    ensures -0x8000_0000 <= maxOnMinutes * 60 - elapsedSeconds < 0x8000_0000 ==>
              r == maxOnMinutes * 60 - elapsedSeconds
    ensures 0 <= maxOnMinutes < 0x8000 && elapsedSeconds < DaysWrapSeconds ==>
              r == maxOnMinutes * 60 - elapsedSeconds
  {
    AsInt32(Wrap32(maxOnMinutes * 60 - elapsedSeconds))
  }

  /** One `Message::check()` from scroll position `pos0` and scroll time
      `time0` leaves position `pos` and time `time`: one step when the
      message is not done and more than 200 ms have passed, no step otherwise. */
  predicate ScrollStepped(pos0: uint8, time0: uint32, done0: bool, now: uint32, pos: uint8, time: uint32)
  {
    var step := !done0 && Elapsed(now, time0) > ScrollDelayMs;
    && pos == (if step then Wrap8(pos0 + 1) else pos0)
    && time == (if step then now else time0)
  }

  /** One `Bargraph::check()` from update time `time0` and pushed buffer
      `shown0`, with `colours` in the buffer: pushed, with time `now`, when
      the time is 0 or more than 5000 ms have passed. */
  predicate BarChecked(time0: uint32, shown0: seq<Colour>, colours: seq<Colour>, now: uint32,
                       time: uint32, shown: seq<Colour>)
  {
    var due := time0 == 0 || Elapsed(now, time0) > UpdateIntervalMs;
    && time == (if due then now else time0)
    && shown == (if due then colours else shown0)
  }

  // ---------------------------------------------------------------- display

  class Display {
    const message: Message
    const counter: Counter
    const bars: seq<Bargraph>
    var latePumpSwitchLed: Indicator
    var lateTankSensorsLed: Indicator
    var valveLeds: seq<Indicator>
    var lastStatusTime: uint32

    /** The parts are valid, and the three bargraphs have their own buffers. */
    ghost predicate Valid()
      reads this`valveLeds, message, message.message, message.scrollBuffer, counter
    {
      && message.Valid() && counter.Valid() && BarsValid()
      && |valveLeds| == TotalValveLeds
    }

    /** Three valid bargraphs, each with its own buffer. */
    ghost predicate BarsValid()
    {
      && |bars| == TotalBargraphs
      && (forall t :: 0 <= t < TotalBargraphs ==> bars[t].Valid())
      && bars[0].colours != bars[1].colours
      && bars[0].colours != bars[2].colours
      && bars[1].colours != bars[2].colours
    }

    /** The buffers of the three bargraphs. */
    ghost function BarBuffers(): set<object>
      requires BarsValid()
    {
      {bars[0].colours, bars[1].colours, bars[2].colours}
    }

    /** `Display(message, counter, bar_1, bar_2, bar_3, leds...)`; the LEDs
        start dark. */
    constructor (message: Message, counter: Counter, bar1: Bargraph, bar2: Bargraph, bar3: Bargraph)
      requires message.Valid() && counter.Valid() && bar1.Valid() && bar2.Valid() && bar3.Valid()
      requires bar1.colours != bar2.colours && bar1.colours != bar3.colours && bar2.colours != bar3.colours
      ensures Valid()
      ensures this.message == message && this.counter == counter && bars == [bar1, bar2, bar3]
      ensures latePumpSwitchLed == Dark && lateTankSensorsLed == Dark
      ensures valveLeds == [Dark, Dark, Dark, Dark, Dark] && lastStatusTime == 0
    {
      this.message := message;
      this.counter := counter;
      bars := [bar1, bar2, bar3];
      latePumpSwitchLed := Dark;
      lateTankSensorsLed := Dark;
      valveLeds := [Dark, Dark, Dark, Dark, Dark];
      lastStatusTime := 0;
    }

    /** `reset()`: blank the message, the counter and the bargraphs. */
    method Reset()
      requires Valid()
      modifies message`lastScrollTime, message`scrollPosition, message.scrollBuffer, counter
      modifies BarBuffers(), bars`shown
      ensures Valid()
      ensures message.scrollBuffer[..] == Blank8 && message.scrollPosition == 0 && message.lastScrollTime == 0
      ensures message.Text() == old(message.Text())
      ensures counter.cells == Cleared
      ensures forall t, i :: 0 <= t < TotalBargraphs && 0 <= i < TotalBars ==> bars[t].colours[i] == Off
      ensures forall t :: 0 <= t < TotalBargraphs ==> bars[t].shown == bars[t].colours[..]
    {
      message.Reset();
      counter.Reset();
      ResetBars();
    }

    /** The loop of `reset()` over the bargraphs. */
    method ResetBars()
      requires BarsValid()
      modifies BarBuffers(), bars`shown
      ensures forall t, i :: 0 <= t < TotalBargraphs && 0 <= i < TotalBars ==> bars[t].colours[i] == Off
      ensures forall t :: 0 <= t < TotalBargraphs ==> bars[t].shown == bars[t].colours[..]
    {
      var t := 0;
      while t < TotalBargraphs
        invariant 0 <= t <= TotalBargraphs
        invariant forall j, i :: 0 <= j < t && 0 <= i < TotalBars ==> bars[j].colours[i] == Off
        invariant forall j :: 0 <= j < t ==> bars[j].shown == bars[j].colours[..]
        modifies BarBuffers(), bars`shown
      {
        bars[t].Reset();
        t := t + 1;
      }
    }

    /** `_updateBars(tankSensors)`: once the sensors have reported, redraw
        every tank's bargraph from its floats; then let each bargraph push
        its buffer if it is due. */
    method UpdateBars(sensors: TankSensors, now: uint32)
      requires BarsValid() && sensors.Valid()
      modifies BarBuffers(), bars`lastUpdateTime, bars`shown
      ensures BarsValid()
      ensures sensors.Ready() ==>
                forall t :: 0 <= t < TotalBargraphs ==> ShowsTank(bars[t].colours[..], TankFloats(sensors.sensors[..], t + 1))
      ensures !sensors.Ready() ==> forall t :: 0 <= t < TotalBargraphs ==> bars[t].colours[..] == old(bars[t].colours[..])
      ensures forall t :: 0 <= t < TotalBargraphs ==>
                BarChecked(old(bars[t].lastUpdateTime), old(bars[t].shown), bars[t].colours[..], now,
                           bars[t].lastUpdateTime, bars[t].shown)
    {
      if sensors.Ready() {
        DrawTanks(sensors);
      }
      CheckBars(now);
    }

    /** The loop over the tanks of `_updateBars`. */
    method DrawTanks(sensors: TankSensors)
      requires BarsValid() && sensors.Valid()
      modifies BarBuffers()
      ensures forall t :: 0 <= t < TotalBargraphs ==> ShowsTank(bars[t].colours[..], TankFloats(sensors.sensors[..], t + 1))
    {
      ghost var inputs := sensors.sensors[..];
      ghost var goal := [TankFloats(inputs, 1), TankFloats(inputs, 2), TankFloats(inputs, 3)];
      var t: uint8 := 0;
      while t < TotalTanks
        invariant 0 <= t <= TotalTanks
        invariant 0 < t ==> ShowsTank(bars[0].colours[..], goal[0])
        invariant 1 < t ==> ShowsTank(bars[1].colours[..], goal[1])
        invariant 2 < t ==> ShowsTank(bars[2].colours[..], goal[2])
        modifies BarBuffers()
      {
        DrawTank(sensors, bars[t], t + 1);
        t := t + 1;
      }
    }

    /** The loop of `_updateBars` that lets every bargraph push its buffer. */
    method CheckBars(now: uint32)
      requires BarsValid()
      modifies bars`lastUpdateTime, bars`shown
      ensures forall t :: 0 <= t < TotalBargraphs ==>
                BarChecked(old(bars[t].lastUpdateTime), old(bars[t].shown), bars[t].colours[..], now,
                           bars[t].lastUpdateTime, bars[t].shown)
    {
      var i := 0;
      while i < TotalBargraphs
        invariant 0 <= i <= TotalBargraphs
        invariant forall j :: 0 <= j < i ==>
                    BarChecked(old(bars[j].lastUpdateTime), old(bars[j].shown), bars[j].colours[..], now,
                               bars[j].lastUpdateTime, bars[j].shown)
        invariant forall j :: i <= j < TotalBargraphs ==>
                    bars[j].lastUpdateTime == old(bars[j].lastUpdateTime) && bars[j].shown == old(bars[j].shown)
        modifies bars`lastUpdateTime, bars`shown
      {
        bars[i].Check(now);
        i := i + 1;
      }
    }

    /** `_updateCounter(pumpSwitch)`: show the remaining run time while the
        pump is on. */
    method UpdateCounter(pump: PumpSwitch, now: uint32)
      requires Valid() && pump.pumpValues.Length == TotalValues
      modifies counter
      ensures Valid()
      ensures counter.cells == Face(pump.IsOn(), RemainingSeconds(pump.maxOnMinutes, pump.ElapsedSeconds()), now)
    {
      var remaining := RemainingSeconds(pump.maxOnMinutes, pump.ElapsedSeconds());
      counter.Check(pump.IsOn(), remaining, now);
    }

    /** `_updateLateLEDs`: one LED per peer node. */
    method UpdateLateLeds(pumpSwitchReady: bool, pumpSwitchLate: bool, sensors: TankSensors, tankSensorsLate: bool)
      requires Valid()
      modifies this`latePumpSwitchLed, this`lateTankSensorsLed
      ensures Valid()
      ensures latePumpSwitchLed == LateIndicator(pumpSwitchReady, pumpSwitchLate)
      ensures lateTankSensorsLed == LateIndicator(sensors.Ready(), tankSensorsLate)
    {
      if pumpSwitchReady && !pumpSwitchLate {
        latePumpSwitchLed := Steady;
      } else if pumpSwitchLate {
        latePumpSwitchLed := Blinking;
      } else {
        latePumpSwitchLed := Dark;
      }
      if sensors.Ready() && !tankSensorsLate {
        lateTankSensorsLed := Steady;
      } else if tankSensorsLate {
        lateTankSensorsLed := Blinking;
      } else {
        lateTankSensorsLed := Dark;
      }
    }

    /** `_updateValveLEDs`: one LED per valve, valve `i + 1` on LED `i`. */
    method UpdateValveLeds(sensors: TankSensors)
      requires Valid() && sensors.Valid()
      modifies this`valveLeds
      ensures Valid()
      ensures forall i :: 0 <= i < TotalValveLeds ==>
                valveLeds[i] == ValveIndicator(sensors.Ready(), ValveOpen(sensors.sensors[..], i + 1))
    {
      var i := 0;
      while i < TotalValveLeds
        invariant 0 <= i <= TotalValveLeds && |valveLeds| == TotalValveLeds
        invariant forall j :: 0 <= j < i ==> valveLeds[j] == ValveIndicator(sensors.Ready(), ValveOpen(sensors.sensors[..], j + 1))
      {
        if sensors.Ready() {
          if sensors.ValveState(i + 1) {
            valveLeds := valveLeds[i := Blinking];
          } else {
            valveLeds := valveLeds[i := Steady];
          }
        } else {
          valveLeds := valveLeds[i := Dark];
        }
        i := i + 1;
      }
    }

    /** `scroll(msg)`: start scrolling `msg` and restart the status interval. */
    method Scroll(msg: string, now: uint32)
      requires Valid()
      modifies this`lastStatusTime, message`messageSize, message`lastScrollTime, message`scrollPosition
      modifies message.message, message.scrollBuffer
      ensures Valid() && lastStatusTime == now
      ensures message.messageSize as int == if Strlen(msg) < MaxSize - 1 then Strlen(msg) else MaxSize - 1
      ensures message.Text() == msg[..message.messageSize]
      ensures message.scrollBuffer[..] == Blank8 && message.scrollPosition == 0 && message.lastScrollTime == 0
    {
      message.SetMessage(msg);
      lastStatusTime := now;
    }

    /** `_scrollStatus(pumpSwitch)`: every 15 seconds start scrolling the pump
        status; in any case advance the scroll. */
    method ScrollStatus(pump: PumpSwitch, now: uint32)
      requires Valid() && pump.pumpValues.Length == TotalValues
      modifies this`lastStatusTime, message`messageSize, message`lastScrollTime, message`scrollPosition
      modifies message.message, message.scrollBuffer
      ensures Valid()
      ensures var due := Elapsed(now, old(lastStatusTime)) > StatusIntervalMs;
              && lastStatusTime == (if due then now else old(lastStatusTime))
              && (due ==>
                    && message.Text() == StatusText(pump.IsOn(), pump.State().clock)
                    && ScrollStepped(0, 0, false, now, message.scrollPosition, message.lastScrollTime))
              && (!due ==>
                    && message.Text() == old(message.Text())
                    && ScrollStepped(old(message.scrollPosition), old(message.lastScrollTime), old(message.Done()), now,
                                     message.scrollPosition, message.lastScrollTime))
    {
      if Elapsed(now, lastStatusTime) > StatusIntervalMs {
        ScrollPumpStatus(pump, now);
      }
      message.Check(now);
    }

    /** The due branch of `_scrollStatus`: build the status line and scroll it. */
    method ScrollPumpStatus(pump: PumpSwitch, now: uint32)
      requires Valid() && pump.pumpValues.Length == TotalValues
      modifies this`lastStatusTime, message`messageSize, message`lastScrollTime, message`scrollPosition
      modifies message.message, message.scrollBuffer
      ensures Valid() && lastStatusTime == now
      ensures message.Text() == StatusText(pump.IsOn(), pump.State().clock)
      ensures message.scrollBuffer[..] == Blank8 && message.scrollPosition == 0 && message.lastScrollTime == 0
    {
      var status := StatusText(pump.IsOn(), pump.State().clock);
      StatusTextFits(pump.IsOn(), pump.State().clock);
      assert Strlen(status) == |status|;
      Scroll(status, now);
    }

    /** The pump half of `check(...)`: `_scrollStatus` then `_updateCounter`. */
    method ShowPump(pump: PumpSwitch, now: uint32)
      requires Valid() && pump.pumpValues.Length == TotalValues
      modifies this`lastStatusTime, message`messageSize, message`lastScrollTime, message`scrollPosition
      modifies message.message, message.scrollBuffer, counter
      ensures Valid()
      ensures lastStatusTime == (if Elapsed(now, old(lastStatusTime)) > StatusIntervalMs then now else old(lastStatusTime))
      ensures Elapsed(now, old(lastStatusTime)) > StatusIntervalMs ==>
                && message.Text() == StatusText(old(pump.IsOn()), old(pump.State().clock))
                && ScrollStepped(0, 0, false, now, message.scrollPosition, message.lastScrollTime)
      ensures Elapsed(now, old(lastStatusTime)) <= StatusIntervalMs ==>
                && message.Text() == old(message.Text())
                && ScrollStepped(old(message.scrollPosition), old(message.lastScrollTime), old(message.Done()), now,
                                 message.scrollPosition, message.lastScrollTime)
      ensures counter.cells == Face(old(pump.IsOn()), RemainingSeconds(pump.maxOnMinutes, old(pump.ElapsedSeconds())), now)
      ensures forall t :: 0 <= t < TotalBargraphs ==> unchanged(bars[t], bars[t].colours)
    {
      ScrollStatus(pump, now);
      UpdateCounter(pump, now);
    }

    /** The sensor half of `check(...)`: `_updateBars`, `_updateLateLEDs`
        and `_updateValveLEDs`. */
    method ShowSensors(pumpSwitchReady: bool, pumpSwitchLate: bool,
                       sensors: TankSensors, tankSensorsLate: bool, now: uint32)
      requires Valid() && sensors.Valid()
      modifies this`latePumpSwitchLed, this`lateTankSensorsLed, this`valveLeds
      modifies BarBuffers(), bars`lastUpdateTime, bars`shown
      ensures Valid()
      ensures sensors.Ready() ==>
                forall t :: 0 <= t < TotalBargraphs ==> ShowsTank(bars[t].colours[..], TankFloats(sensors.sensors[..], t + 1))
      ensures !sensors.Ready() ==> forall t :: 0 <= t < TotalBargraphs ==> bars[t].colours[..] == old(bars[t].colours[..])
      ensures forall t :: 0 <= t < TotalBargraphs ==>
                BarChecked(old(bars[t].lastUpdateTime), old(bars[t].shown), bars[t].colours[..], now,
                           bars[t].lastUpdateTime, bars[t].shown)
      ensures latePumpSwitchLed == LateIndicator(pumpSwitchReady, pumpSwitchLate)
      ensures lateTankSensorsLed == LateIndicator(sensors.Ready(), tankSensorsLate)
      ensures forall i :: 0 <= i < TotalValveLeds ==>
                valveLeds[i] == ValveIndicator(sensors.Ready(), ValveOpen(sensors.sensors[..], i + 1))
      ensures lastStatusTime == old(lastStatusTime) && counter.cells == old(counter.cells)
      ensures message.Text() == old(message.Text())
      ensures message.scrollPosition == old(message.scrollPosition) && message.lastScrollTime == old(message.lastScrollTime)
    {
      UpdateBars(sensors, now);
      UpdateLateLeds(pumpSwitchReady, pumpSwitchLate, sensors, tankSensorsLate);
      UpdateValveLeds(sensors);
    }

    /** `check(...)`: status, counter, bargraphs, late LEDs, valve LEDs. Whether
        the pump switch has reported is an input, since `PumpSwitch` has no
        `ready()`. */
    method Check(pump: PumpSwitch, pumpSwitchReady: bool, pumpSwitchLate: bool,
                 sensors: TankSensors, tankSensorsLate: bool, now: uint32)
      requires Valid() && pump.pumpValues.Length == TotalValues && sensors.Valid()
      modifies this`lastStatusTime, this`latePumpSwitchLed, this`lateTankSensorsLed, this`valveLeds
      modifies message`messageSize, message`lastScrollTime, message`scrollPosition
      modifies message.message, message.scrollBuffer, counter, BarBuffers(), bars`lastUpdateTime, bars`shown
      ensures Valid()
      ensures lastStatusTime == (if Elapsed(now, old(lastStatusTime)) > StatusIntervalMs then now else old(lastStatusTime))
      ensures Elapsed(now, old(lastStatusTime)) > StatusIntervalMs ==>
                && message.Text() == StatusText(old(pump.IsOn()), old(pump.State().clock))
                && ScrollStepped(0, 0, false, now, message.scrollPosition, message.lastScrollTime)
      ensures Elapsed(now, old(lastStatusTime)) <= StatusIntervalMs ==>
                && message.Text() == old(message.Text())
                && ScrollStepped(old(message.scrollPosition), old(message.lastScrollTime), old(message.Done()), now,
                                 message.scrollPosition, message.lastScrollTime)
      ensures counter.cells == Face(old(pump.IsOn()), RemainingSeconds(pump.maxOnMinutes, old(pump.ElapsedSeconds())), now)
      ensures sensors.Ready() ==>
                forall t :: 0 <= t < TotalBargraphs ==> ShowsTank(bars[t].colours[..], TankFloats(sensors.sensors[..], t + 1))
      ensures !sensors.Ready() ==> forall t :: 0 <= t < TotalBargraphs ==> bars[t].colours[..] == old(bars[t].colours[..])
      ensures forall t :: 0 <= t < TotalBargraphs ==>
                BarChecked(old(bars[t].lastUpdateTime), old(bars[t].shown), bars[t].colours[..], now,
                           bars[t].lastUpdateTime, bars[t].shown)
      ensures latePumpSwitchLed == LateIndicator(pumpSwitchReady, pumpSwitchLate)
      ensures lateTankSensorsLed == LateIndicator(sensors.Ready(), tankSensorsLate)
      ensures forall i :: 0 <= i < TotalValveLeds ==>
                valveLeds[i] == ValveIndicator(sensors.Ready(), ValveOpen(sensors.sensors[..], i + 1))
    {
      ShowPump(pump, now);
      ShowSensors(pumpSwitchReady, pumpSwitchLate, sensors, tankSensorsLate, now);
    }
  }
}
