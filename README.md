# danaides in Dafny

danaides is Arduino firmware for a rain-water tank system built from three
nodes that talk over XBee (ZigBee) radios:

- a **pump switch** starts and stops a pump with a button;
- a **remote sensor** reads the float switches of three tanks and the positions of five valves;
- a **base station** shows everything on a front panel.

This project models the libraries those nodes share. Each library is one
Dafny module:

| module | library | form |
|---|---|---|
| `Ints` | (shared) | 8-, 16- and 32-bit unsigned integers and `int32`; the wrap-around of `millis()` differences (`Elapsed`) and of the firmware's casts |
| `Leds` | `LED` | class `LED` with its steady state, pin level and heartbeat timer; every pin write goes into a ghost log |
| `Payloads` | `Data` | class `Data`: a private copy of a byte payload, tagged with a 16-bit address |
| `Tanks` | `TankSensors` | class `TankSensors` over the 32 raw inputs; pure functions give the layout's meaning of each input |
| `Messages` | `Message` | class `Message`: the 250-byte text and the 8-character scroll buffer, with the invariant that the buffer shows one window of the scrolling text |
| `Counters` | `Counter` | class `Counter`: the five-position seven-segment buffer, specified by the pure `Face` |
| `Bargraphs` | `Bargraph` | class `Bargraph`: the 24-bar colour buffer and what was last pushed to the hardware |
| `Radio` | `WAN` | class `WAN`: the sleep flag and the DTR line, receive over an abstract `Response`, and a ghost log of sent frames |
| `Pump` | `PumpSwitch` | class `PumpSwitch`, proved against pure step functions (`StartStep`, `StopStep`, `CheckStep`) over `PumpState`; lemmas state the interlock, the cutoff and the effects of each call |
| `Displays` | `Display` | class `Display` over its message, counter and three bargraphs; pure functions give the bar fill, the LED modes, the status text and the remaining time |

Inputs from outside the model:

- Time is an explicit `now: uint32` wherever the source reads `millis()`. Every `millis()` read inside one call returns that same value.
- The debounced button edge of the pump switch is the boolean `fell`.
- What the XBee library read is a `Response` value.
- Whether the pump switch has reported to the base station is a boolean input of `Display.Check`.

Outputs are logged on ghost fields:

- the start/stop callbacks of the pump switch (`PumpSwitch.callbacks`);
- the levels written to an LED pin (`LED.writes`);
- the levels written to the XBee DTR line (`WAN.dtrWrites`);
- the frames handed to the radio (`WAN.sent`).

Behaviour of the code as written that the model keeps and states:

- `_lastStartAttemptTime` is assigned only when it is already nonzero. It therefore stays zero, the 60-second attempt window never opens, and every refused start counts towards the override (`Pump.AttemptWindowNeverOpens`).
- The elapsed time is the `uint32_t` difference `millis() - _time`. It wraps after about 49.7 days, so an off time that long starts counting from 0 again. Within that range the counters never lose anything: days stay below 50, and `getElapsedSeconds()` is exactly the elapsed whole seconds (`Pump.ElapsedClockSeconds`).
- `Data` keeps a 16-bit address. `receive` stores the sender's low 32 address bits truncated to 16, so a received address is never one of the three 32-bit node addresses (`Radio.SixteenBitAddressNamesNoRole`).
- `_scrollPosition` is a `uint8_t`. A message longer than 247 characters never finishes scrolling: the position wraps from 255 to 0 (`Messages.ScrollWrapsForLongMessages`).

## Model

| member | source | states |
|---|---|---|
| Ints.Elapsed | libraries/PumpSwitch/PumpSwitch.cpp:43 | `now - since` on `uint32_t` is the plain difference, or the difference across one clock wrap |
| Ints.AsInt32 | libraries/Display/Display.cpp:43 | storing an `unsigned long` in an `int32_t` keeps the value modulo 2^32; the result is non-negative iff the value is below 2^31 |
| Ints.Wrap8 | libraries/PumpSwitch/PumpSwitch.cpp:46 | a `uint8_t` assignment keeps the value modulo 256 |
| Ints.Wrap16 | libraries/WAN/WAN.cpp:106 | passing the 32-bit sender address as a `uint16_t` keeps it modulo 2^16 |
| Leds.FlashLevelsShape | libraries/LED/LED.cpp:42-52 | `flash(times, _)` writes nothing for `times <= 0`; otherwise exactly `2 * times` levels, alternating the inverse of the steady level and the steady level |
| Leds.LED.constructor | libraries/LED/LED.cpp:9-20 | `LED(pin)` keeps the pin, starts the heartbeat timer at `now`, is not enabled and has written nothing |
| Leds.LED.Unassigned | libraries/LED/LED.cpp:5-7 | `LED()` uses pin -1 and otherwise starts like `LED(pin)` |
| Leds.LED.Setup | libraries/LED/LED.cpp:22-27 | `setup()` drives the pin LOW once and changes no other state |
| Leds.LED.On | libraries/LED/LED.cpp:30-33 | `on()` enables the LED and writes HIGH, whatever the previous state |
| Leds.LED.Off | libraries/LED/LED.cpp:36-39 | `off()` disables the LED and writes LOW, whatever the previous state |
| Leds.LED.Flash | libraries/LED/LED.cpp:42-52 | `flash` appends `FlashLevels(times, enabled)` to the pin log; the pin ends at the steady level when `times >= 1`; `enabled` is unchanged |
| Leds.LED.Thinking | libraries/LED/LED.cpp:59-61 | `thinking()` is five blinks around the steady level and ends at it |
| Leds.LED.Error | libraries/LED/LED.cpp:64-66 | `error()` is three blinks around the steady level and ends at it |
| Leds.LED.Heartbeat | libraries/LED/LED.cpp:69-74 | when more than 5000 ms have passed since the last heartbeat: one blink and the timer restarts at `now`; otherwise nothing changes |
| Payloads.Data.Contents | libraries/Data/Data.cpp:49-55 | `getData()` holds exactly `getSize()` bytes |
| Payloads.Data.constructor | libraries/Data/Data.cpp:29-33 | `Data()` has address 0, size 0, no payload and is not initialised |
| Payloads.Data.Copy | libraries/Data/Data.cpp:35-37 | `Data(address, data, size)` holds the address, the size and a fresh copy of the first `size` bytes |
| Payloads.Data.Init | libraries/Data/Data.cpp:8-23 | `_init` replaces address and size and copies `src[..size]` into a freshly allocated buffer; the caller's bytes must not be the buffer `_init` deletes |
| Payloads.Data.Set | libraries/Data/Data.cpp:45-47 | `set` fully replaces address, size and payload with a private copy, whatever the object held before |
| Payloads.Data.HasAddress | libraries/Data/Data.cpp:61-63 | `hasAddress()` is true iff the address is nonzero |
| Payloads.CopySemantics | libraries/Data/Data.cpp:16-20 | for every address, array, size and write: after `set`, writing any byte of the caller's array leaves the payload equal to the bytes `set` was given |
| Tanks.InputLayout | libraries/TankSensors/TankSensors.h:12-73 | every (tank, float) pair has its own input; no float shares an input with the inverted float or with a valve; all inputs lie within the 32 |
| Tanks.TankSensors.constructor | libraries/TankSensors/TankSensors.cpp:16-18 | a new sensor set is not ready |
| Tanks.TankSensors.Ready | libraries/TankSensors/TankSensors.cpp:43-45 | `ready()` is the `_initialized` flag, false after construction and set by every `update` |
| Tanks.TankSensors.Update | libraries/TankSensors/TankSensors.cpp:47-60 | `update` copies inputs `0 .. size-1`, keeps the rest, returns true iff one of the copied inputs differed, and makes the sensors ready |
| Tanks.TankSensors.SensorState | libraries/TankSensors/TankSensors.cpp:62-75 | input `i` is off past 31; input 0 (the inverted float) is on when zero; every other input is on when nonzero |
| Tanks.TankSensors.ValveState | libraries/TankSensors/TankSensors.cpp:77-86 | valves 1..5 read inputs 19..23; valve 0 and valves above 5 are closed |
| Tanks.TankSensors.FloatState | libraries/TankSensors/TankSensors.cpp:88-118 | floats 1..6 of tanks 1..3 read their own input; float 1 of tank 1 is on if input 1 is set or the inverted float says so; every other (tank, float) is off |
| Tanks.TankSensors.TankState | libraries/TankSensors/TankSensors.cpp:120-124 | a tank is full exactly when its float 1 is on |
| Messages.Strlen | libraries/Message/Message.cpp:67-71 | the length of a C string: every character before it is non-NUL, and it stops at the first NUL or at the end |
| Messages.WindowStep | libraries/Message/Message.cpp:83-109 | one scroll step moves the 8-character window one place along "8 blanks + text + 8 blanks": the buffer shifts left and the next text character (a blank past the end) enters on the right; the window is blank at the start and at the end |
| Messages.Message.constructor | libraries/Message/Message.cpp:28-46 | `Message(address_1, address_2)` followed by `setup()` keeps the addresses, has an empty text, a blank buffer and scroll position 0 |
| Messages.Message.Reset | libraries/Message/Message.cpp:48-63 | `reset()` blanks the scroll buffer and rewinds position and scroll time to 0 |
| Messages.Message.SetMessage | libraries/Message/Message.cpp:65-74 | `setMessage` keeps the first `min(strlen(msg), 249)` characters, NUL-terminated, takes that as the size, and then resets the scroll |
| Messages.Message.Check | libraries/Message/Message.cpp:76-111 | when not done and more than 200 ms have passed: one character is shifted in, the position advances (mod 256), and the scroll time is `now`; otherwise nothing changes; the text is never changed |
| Messages.Message.ShiftIn | libraries/Message/Message.cpp:89-103 | every slot takes its right neighbour's character and the last slot takes `c` |
| Messages.ScrollReachesEnd | libraries/Message/Message.cpp:77-109 | for a message of at most 247 characters that has not finished scrolling, a step advances `_scrollPosition` by exactly one without passing `_messageSize + 8` |
| Messages.ScrollWrapsForLongMessages | libraries/Message/Message.cpp:77-109 | a message of 248 or 249 characters is never done scrolling, so `check()` never stops, and from position 255 the next step wraps to 0 |
| Counters.SplitDigits | libraries/Counter/Counter.cpp:51-58 | for a positive count, the digits read back as the count (`60 * (10 d0 + d1) + 10 d3 + d4`); d1 and d4 are at most 9 and d3 at most 5; d0 is at most 9 only below 100 minutes |
| Counters.FaceShows | libraries/Counter/Counter.cpp:45-73 | a positive count shows MM:SS that reads back as the count, with the colon lit iff `now % 1000 < 500`; a count of zero or less flashes 00:00; the display is cleared when not shown; position 2 never holds a digit |
| Counters.Counter.constructor | libraries/Counter/Counter.cpp:23-34 | `Counter(address)` followed by `setup()` keeps the address and is cleared |
| Counters.Counter.Reset | libraries/Counter/Counter.cpp:36-39 | `reset()` clears the display |
| Counters.Counter.Check | libraries/Counter/Counter.cpp:45-73 | `check(show, seconds)` leaves exactly `Face(show, seconds, now)` on the display |
| Bargraphs.Bargraph.constructor | libraries/Bargraph/Bargraph.cpp:24-36 | `Bargraph(address)` followed by `setup()` keeps the address, has update time 0, and all 24 bars off and pushed |
| Bargraphs.Bargraph.Reset | libraries/Bargraph/Bargraph.cpp:38-41 | `reset()` turns every bar off and pushes the buffer |
| Bargraphs.Bargraph.Check | libraries/Bargraph/Bargraph.cpp:43-49 | the buffer is pushed, with update time `now`, iff the update time is 0 or more than 5000 ms have passed; otherwise nothing changes |
| Bargraphs.Bargraph.SetBlock | libraries/Bargraph/Bargraph.cpp:51-71 | the first bar of the block is green or red by `state`; the rest of the block is yellow or off by `fill`; every bar outside the block is unchanged |
| Radio.GetBaseStationAddress | libraries/WAN/WAN.cpp:153-155 | the base station address satisfies `isBaseStationAddress` |
| Radio.GetRemoteSensorAddress | libraries/WAN/WAN.cpp:157-159 | the remote sensor address satisfies `isRemoteSensorAddress` |
| Radio.GetPumpSwitchAddress | libraries/WAN/WAN.cpp:161-163 | the pump switch address satisfies `isPumpSwitchAddress` |
| Radio.AddressesNameOneRole | libraries/WAN/WAN.cpp:165-175 | no address satisfies two of the role predicates, and each predicate holds exactly for its own getter's address |
| Radio.SixteenBitAddressNamesNoRole | libraries/Data/Data.cpp:8-9 | the address of any `Data` object, which is 16-bit, is none of the three node addresses |
| Radio.WAN.constructor | libraries/WAN/WAN.cpp:19-37 | a new link has sleep disabled, both pins 0, and has written and sent nothing |
| Radio.WAN.Sleep | libraries/WAN/WAN.cpp:73-82 | `_sleep()` drives DTR HIGH when sleep is enabled and otherwise writes nothing |
| Radio.WAN.Wake | libraries/WAN/WAN.cpp:84-94 | `_wake()` drives DTR LOW when sleep is enabled and otherwise writes nothing |
| Radio.WAN.EnableSleep | libraries/WAN/WAN.cpp:50-63 | `enableSleep` records the pins, writes LOW then HIGH, and leaves sleep enabled with DTR HIGH |
| Radio.WAN.DisableSleep | libraries/WAN/WAN.cpp:65-69 | `disableSleep` wakes the radio if it was sleeping, and leaves sleep disabled with DTR LOW |
| Radio.WAN.Receive | libraries/WAN/WAN.cpp:96-134 | the answer is true iff the response is an RX frame; only then does `data` receive the 16-bit sender address and a copy of the payload; every other response leaves `data` untouched; DTR is woken and put back to sleep when sleep is enabled |
| Radio.WAN.Transmit | libraries/WAN/WAN.cpp:136-151 | `transmit` sends exactly one frame to the family address plus the data's address, with the data's payload, and always answers true |
| Pump.MsToMinutes | libraries/PumpSwitch/PumpSwitch.cpp:13-15 | the result is the number of whole minutes in `ms` milliseconds |
| Pump.ElapsedClock | libraries/PumpSwitch/PumpSwitch.cpp:42-56 | after `_updateElapsedTime` the counters are in range: seconds and minutes below 60, hours below 24 |
| Pump.ClockSeconds | libraries/PumpSwitch/PumpSwitch.cpp:120-128 | `getElapsedSeconds()` of in-range counters is below 256 days (the range of a `uint8_t` day count), so the 32-bit sum never overflows |
| Pump.ElapsedClockSeconds | libraries/PumpSwitch/PumpSwitch.cpp:42-128 | for every `uint32_t` difference of milliseconds, the day count stays below 50 (it never wraps), and `getElapsedSeconds()` gives back exactly `(now - _time) / 1000` |
| Pump.RedundantCallsChangeNothing | libraries/PumpSwitch/PumpSwitch.cpp:162-218 | `start()` while on and `stop()` while off change no state, write no LED level and run no callback |
| Pump.StartEffects | libraries/PumpSwitch/PumpSwitch.cpp:171-202 | `start()` from off either starts the pump (running, counters 0, `_time` = now, the start callback once) or is refused (state and callbacks untouched) |
| Pump.StopEffects | libraries/PumpSwitch/PumpSwitch.cpp:220-229 | `stop()` from on always stops the pump: not running, counters 0, `_time` = now, attempt count kept, the stop callback once |
| Pump.Interlock | libraries/PumpSwitch/PumpSwitch.cpp:172-190 | within the minimum off time (with `_time != 0`), a start is refused iff the incremented attempt count is below 3; a refusal only counts the attempt; the attempt that reaches 3 starts the pump and clears the count and the attempt time |
| Pump.NoInterlock | libraries/PumpSwitch/PumpSwitch.cpp:171-199 | with `_time == 0`, or once the minimum off time has passed, `start()` from off starts the pump |
| Pump.AttemptWindowNeverOpens | libraries/PumpSwitch/PumpSwitch.cpp:173-178 | a zero `_lastStartAttemptTime` stays zero after `start()`, and each refusal adds one to the attempt count |
| Pump.ThirdAttemptOverrides | libraries/PumpSwitch/PumpSwitch.cpp:172-199 | of three start attempts within the minimum off time, the first two are refused and the third starts the pump with no attempts counted |
| Pump.CheckCutoff | libraries/PumpSwitch/PumpSwitch.cpp:134-153 | after `check()` a running pump is under its maximum on time; a press while on stops the pump; without a press, a running pump keeps running iff it is under the maximum, and the cutoff stops it otherwise |
| Pump.PumpSwitch.constructor | libraries/PumpSwitch/PumpSwitch.cpp:62-83 | a new switch is off with counters 0, `_time` = now, no attempts, the default limits of 2 minutes, and no callback run |
| Pump.PumpSwitch.IsOn | libraries/PumpSwitch/PumpSwitch.cpp:96-98 | `isOn()` is the running flag of the state |
| Pump.PumpSwitch.IsOff | libraries/PumpSwitch/PumpSwitch.cpp:100-102 | `isOff()` is its negation |
| Pump.PumpSwitch.ElapsedSeconds | libraries/PumpSwitch/PumpSwitch.cpp:120-128 | `getElapsedSeconds()` is the counters as seconds, `ClockSeconds` of the state's clock |
| Pump.PumpSwitch.ResetPumpValues | libraries/PumpSwitch/PumpSwitch.cpp:17-24 | `_resetPumpValues` sets the running flag, zeroes the counters and sets `_time` to now |
| Pump.PumpSwitch.UpdateElapsedTime | libraries/PumpSwitch/PumpSwitch.cpp:42-56 | `_updateElapsedTime` sets the counters to `ElapsedClock(now - _time)` and changes nothing else |
| Pump.PumpSwitch.Start | libraries/PumpSwitch/PumpSwitch.cpp:159-205 | `start()` moves the state by `StartStep`, runs the start callback iff it starts the pump, writes that transition's LED levels, and keeps the invariant (LED steady state = running, fewer than 3 attempts counted, `_lastStartAttemptTime` 0) |
| Pump.PumpSwitch.Stop | libraries/PumpSwitch/PumpSwitch.cpp:211-232 | `stop()` moves the state by `StopStep`, runs the stop callback iff it stops the pump, writes that transition's LED levels, and keeps the invariant |
| Pump.PumpSwitch.Check | libraries/PumpSwitch/PumpSwitch.cpp:134-153 | `check()` moves the state by `CheckStep`; its callbacks and LED levels are those of the button transition and then the cutoff transition; the heartbeat follows |
| Displays.LateIndicator | libraries/Display/Display.cpp:47-64 | a late LED flashes iff the peer is late, is steady iff the peer has reported and is not late, and is dark otherwise |
| Displays.ValveIndicator | libraries/Display/Display.cpp:70-85 | a valve LED is dark iff the sensors have not reported, flashes iff they have and the valve is open, and is steady iff they have and it is closed |
| Displays.FilledMeans | libraries/Display/Display.cpp:25-31 | the sticky fill at float `f` is on iff some float at or above `f` is on, and once on it stays on further down |
| Displays.FilledStaysOn | libraries/Display/Display.cpp:28-30 | a fill that is on at float `f` is on at every lower float |
| Displays.TankBarShows | libraries/Display/Display.cpp:21-33 | on a drawn tank bargraph, the marker of float `f` is green iff the float is on (red otherwise), and each other bar of its block is yellow iff some float at or above `f` is on (off otherwise) |
| Displays.DrawTank | libraries/Display/Display.cpp:25-32 | walking a tank's six floats from the top leaves its bargraph showing that tank |
| Displays.LeadingUnit | libraries/Display/Display.cpp:100-109 | the first duration is in days if days are nonzero, else in hours if hours are nonzero, else in minutes |
| Displays.Snprintf | libraries/Display/Display.cpp:93-112 | `snprintf` into `size` bytes keeps the whole text when it fits, and exactly its first `size - 1` characters when it does not |
| Displays.Decimal | libraries/Display/Display.cpp:101-108 | `%u` prints at least one digit and only digits: one digit below 10, at most three below 1000 |
| Displays.DecimalRoundTrip | libraries/Display/Display.cpp:101-108 | the digits `%u` prints read back as the number |
| Displays.DurationTextFits | libraries/Display/Display.cpp:98-109 | a duration ("255 DAYS" at most) fits its 9-byte buffer untruncated and holds no NUL |
| Displays.StatusTextFits | libraries/Display/Display.cpp:111-113 | the status line is never truncated, is at most 33 characters (below the message limit) and holds no NUL, so `setMessage` keeps all of it |
| Displays.RemainingSeconds | libraries/Display/Display.cpp:42-45 | the value handed to the counter is `maxOnMinutes * 60 - elapsedSeconds` whenever that fits an `int32_t`, in particular for every in-range pump |
| Displays.Display.constructor | libraries/Display/Display.cpp:123-149 | the display keeps its message, counter and three bargraphs, with all LEDs dark and status time 0 |
| Displays.Display.Reset | libraries/Display/Display.cpp:172-179 | `reset()` blanks the message buffer and rewinds its scroll position and scroll time to 0, keeps the text, clears the counter, and turns every bar of the three bargraphs off and pushes them |
| Displays.Display.ResetBars | libraries/Display/Display.cpp:176-178 | every bargraph is reset |
| Displays.Display.UpdateBars | libraries/Display/Display.cpp:21-39 | when the sensors are ready, each bargraph shows its tank's floats; when not, no bar changes; each bargraph is then pushed iff its interval is due |
| Displays.Display.DrawTanks | libraries/Display/Display.cpp:24-33 | every bargraph shows its own tank |
| Displays.Display.CheckBars | libraries/Display/Display.cpp:36-38 | each bargraph is pushed, with update time `now`, iff its own interval is due |
| Displays.Display.UpdateCounter | libraries/Display/Display.cpp:42-45 | the counter shows the remaining run time while the pump is on and is cleared while it is off |
| Displays.Display.UpdateLateLeds | libraries/Display/Display.cpp:47-68 | each late LED takes the `LateIndicator` of its peer |
| Displays.Display.UpdateValveLeds | libraries/Display/Display.cpp:70-85 | valve LED `i` takes the `ValveIndicator` of valve `i + 1` |
| Displays.Display.Scroll | libraries/Display/Display.cpp:193-196 | `scroll(msg)` sets `msg` (at most 249 characters) as the message, rewinds the scroll and restarts the status interval at `now` |
| Displays.Display.ScrollStatus | libraries/Display/Display.cpp:87-117 | when more than 15000 ms have passed, the message becomes the pump status text and the status time `now`; otherwise text and status time are unchanged; then the scroll position and scroll time advance by one `Message::check()` step (`ScrollStepped`) from the rewound or the old scroll state |
| Displays.Display.ScrollPumpStatus | libraries/Display/Display.cpp:89-113 | the status line of the pump's state becomes the message, the scroll is rewound and the status time is `now` |
| Displays.Display.ShowPump | libraries/Display/Display.cpp:182-184 | the status time, the status text or the unchanged text, the scroll step and the counter, as in `ScrollStatus` and `UpdateCounter`, from the pump's state before the call; the bargraphs are untouched |
| Displays.Display.ShowSensors | libraries/Display/Display.cpp:186-190 | the bargraph buffers, each bargraph's push time and pushed buffer (`BarChecked`), the late LEDs and the valve LEDs from the sensors; message, counter and status time are untouched |
| Displays.Display.Check | libraries/Display/Display.cpp:181-191 | `check(...)` combines all of the above: the status time and text (unchanged when not due), the scroll step, the counter, the tank bargraphs (unchanged when the sensors are not ready) with each bargraph's push gating, the late LEDs and the valve LEDs |

## Left out

- Hardware output is not modelled. This covers the Adafruit drivers (`begin`, `clear`, `writeDisplay`, `writeDigitAscii`, `writeDigitNum`, `drawColon`, `setBar`) and `pinMode`. The display buffers and the pin levels stand for it.
- `delay`, `delayMicroseconds`, `Serial` and `dbg` have no state that matters. During `flash`, real time moves on; in the model, time stands still within one call.
- The Bounce2 debouncer is not modelled; `check()` takes `update() && fell()` as the input `fell`.
- The XBee library (`readPacket`, `getResponse`, `send`, frame parsing, `_init(serial)`) is a third-party library outside these sources. One poll is the abstract `Response`, and a send is an entry in `WAN.sent`.
- Radio.WAN.Wake: the busy-wait for CTS to go LOW is hardware polling. The radio is taken to be ready at once.
- The WAN status LED (`_led.success()`, `_led.error()`, `check()`) is left out. `success()` and `check()` are not defined by the LED library.
- `LED::flashing()` and `LED::check()`, which Display calls, are not in the LED library. Each Display LED is modelled as the `Indicator` it was last set to.
- `PumpSwitch::ready()` and `getValueDays/Hours/Minutes/Seconds`, which Display calls, are not in `PumpSwitch.cpp`.
  - `ready()` is the boolean input `pumpSwitchReady` of `Display.Check`.
  - The values are read as the pump's elapsed-time counters.
- The `setup()` methods of Message, Counter and Bargraph are folded into their constructors. `LED.Setup` is kept as its own method.
- `PumpSwitch::setup()` is left out. It configures the button pin and the debouncer, then calls the LED's `setup()`, which writes LOW. That write is not in `LED.writes` of the model.
- `Display::setup()` is left out. It runs the `setup()` of every part, including seven LED `setup()` calls that each write LOW, and then calls `reset()`. Only `reset()` is modelled (`Display.Reset`), so those LOW writes are in no log.
- The destructors and the no-argument constructors of Message, Counter and Bargraph are left out. They are the address constructors with address 0.
- The accessors `getData`, `getSize`, `getAddress`, `getPumpValues`, `getNumPumpValues`, `getMaxOnMinutes`, `getMinOffMinutes` and the `getNum*` of TankSensors are left out. They are the fields and constants they return.
- Display receives a 3-argument `setBlock(state, fill, f)` that `Bargraph.cpp` does not define. It is modelled as the 4-argument `setBlock` with six blocks of four bars, one per float.
- Display holds its message, counter and bargraphs by value. They are modelled as references to part objects that the display alone updates.
- The header files declare an older interface than the `.cpp` files. The `.cpp` files are followed:
  - `WAN.h` lacks the sleep fields and passes `Data` to `transmit` by value;
  - `Bargraph.h` declares a 2-argument constructor and a 3-argument `setBlock`;
  - `Message.h` lacks the address constructor;
  - `TankSensors.h` lacks `_initialized` and `ready()`.
- `snprintf` is modelled as `%u` digits plus the unit name, truncated to the buffer size, not byte by byte.
- Tanks.TankSensors.Update: requires `size <= 32` and a payload buffer other than the sensor array. The source checks neither; a larger payload would write past `_sensors`.
- Bargraphs.Bargraph.SetBlock: requires the block to lie within the 24 bars (`BlockFits`). The source does not check this; a block count of zero, or a block past the end, is not modelled.
- Messages.Message.Check reads `message[pos]` only when `pos < size`. The source reads `_message[_scrollPosition]` before replacing it by a blank, and for positions 250 to 255 that read is past the 250-byte buffer.
- Displays.Display.ScrollStatus, `ShowPump` and `Check` state the scroll buffer's contents only through `Message.Valid`: it is the window at the current position for texts of at most 247 characters. For longer texts, the one-character shift of the buffer is stated by `Message.Check` alone.
- Payloads.Data.Init and `Set` require that the caller's bytes are not the object's own buffer. The source deletes that buffer before copying from it, so the case has no defined behaviour.
- Messages.Message.Valid states the window invariant only for texts of at most 247 characters. For longer texts the 8-bit position wraps before the end (see `ScrollWrapsForLongMessages`).
- `Displays.Display.ShowPump`, `ShowSensors`, `ScrollPumpStatus`, `ResetBars`, `DrawTanks` and `CheckBars` are not functions of the source. They are the halves and loops of `check()` and `_updateBars` / `reset()`, given their own contracts.
- `InputShiftRegister` is bit-banged pin reading with timing pulses and is not part of this model. `Danaides` (`freeRam`, heap pointer arithmetic) is not part of this model either.
