/** Fixed-width unsigned and signed integers of the AVR target, and the
    wrap-around arithmetic the firmware relies on for `millis()` deltas. */
module Ints {

  type uint8 = x: int | 0 <= x < 0x100
  type uint16 = x: int | 0 <= x < 0x1_0000
  type uint32 = x: int | 0 <= x < 0x1_0000_0000
  type int32 = x: int | -0x8000_0000 <= x < 0x8000_0000

  /** Reduction of an arbitrary integer to `uint32_t`, as unsigned C arithmetic does. */
  function Wrap32(x: int): (r: uint32)
    ensures (r - x) % 0x1_0000_0000 == 0
  {
    x % 0x1_0000_0000
  }

  /** `now - since` on `uint32_t`: the time since `since`, correct across one
      wrap of the millisecond clock. */
  function Elapsed(now: uint32, since: uint32): (d: uint32)
    ensures since <= now ==> d == now - since
    ensures now < since ==> d == now + 0x1_0000_0000 - since
  {
    Wrap32(now - since)
  }

  /** Conversion of a `uint32_t` to `int32_t` (two's complement, as on avr-gcc). */
  function AsInt32(x: uint32): (r: int32)
    ensures (r - x) % 0x1_0000_0000 == 0
    ensures r >= 0 <==> x < 0x8000_0000
  {
    if x < 0x8000_0000 then x else x - 0x1_0000_0000
  }

  /** A uint8 truncation: the value a `uint8_t` variable holds after assignment. */
  function Wrap8(x: int): (r: uint8)
    ensures (r - x) % 0x100 == 0
  {
    x % 0x100
  }

  /** A uint16 truncation: the value a `uint16_t` parameter receives. */
  function Wrap16(x: int): (r: uint16)
    ensures (r - x) % 0x1_0000 == 0
  {
    x % 0x1_0000
  }
}
