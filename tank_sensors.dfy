/** libraries/TankSensors: the 32 raw inputs of the remote sensor node and
    their interpretation as float switches (three tanks of six floats, with a
    redundant inverted float on tank 1) and valve positions. */
module Tanks {
  import opened Ints
  import opened Payloads

  const TotalInputs := 32
  const TotalValves := 5
  const TotalTanks := 3
  const FloatsPerTank := 6

  const Tank1InvertedFloat := 0
  const Tank1Float1 := 1
  const Tank1FloatOffset := 0
  const Tank2FloatOffset := 6
  const Tank3FloatOffset := 12
  const ValvePositionOffset := 18

  /** The input that carries float `f` of tank `t` in the header's layout
      (tank 1 floats at 1..6, tank 2 at 7..12, tank 3 at 13..18). */
  function FloatInput(t: int, f: int): int
  {
    FloatsPerTank * (t - 1) + f
  }

  /** The input that carries valve `v` (valves 1..5 at 19..23). */
  function ValveInput(v: int): int
  {
    ValvePositionOffset + v
  }

  /** The layout gives every float its own input, none of them the inverted
      float or a valve, and all of them inside the 32 inputs. */
  lemma InputLayout(t: int, f: int, t': int, f': int, v: int)
    requires 1 <= t <= TotalTanks && 1 <= f <= FloatsPerTank
    requires 1 <= t' <= TotalTanks && 1 <= f' <= FloatsPerTank
    requires 1 <= v <= TotalValves
    ensures Tank1InvertedFloat < FloatInput(t, f) < ValveInput(1)
    ensures ValveInput(TotalValves) < TotalInputs
    ensures FloatInput(t, f) == FloatInput(t', f') ==> t == t' && f == f'
    ensures FloatInput(t, f) != ValveInput(v)
  {
  }

  /** The layout's reading of input `i` of the 32 inputs: a switch is on
      when its input is nonzero, except the inverted float, which is on when
      its input is zero; an input outside the 32 is off. */
  function SensorOn(inputs: seq<uint8>, i: int): bool
    requires |inputs| == TotalInputs
  {
    0 <= i < TotalInputs && (if i == Tank1InvertedFloat then inputs[i] == 0 else inputs[i] != 0)
  }

  /** Valve `v` (1..5) is open when its input is on. */
  function ValveOpen(inputs: seq<uint8>, v: int): bool
    requires |inputs| == TotalInputs
  {
    1 <= v <= TotalValves && inputs[ValveInput(v)] != 0
  }

  /** Float `f` (1..6) of tank `t` (1..3) is on when its input is on; the top
      float of tank 1 is doubled by the inverted float, and either suffices. */
  function FloatOn(inputs: seq<uint8>, t: int, f: int): bool
    requires |inputs| == TotalInputs
  {
    && 1 <= t <= TotalTanks && 1 <= f <= FloatsPerTank
    && if t == 1 && f == 1 then inputs[Tank1Float1] != 0 || inputs[Tank1InvertedFloat] == 0
       else inputs[FloatInput(t, f)] != 0
  }

  class TankSensors {
    const sensors: array<uint8>
    var initialized: bool

    ghost predicate Valid()
      reads this
    {
      sensors.Length == TotalInputs
    }

    /** `TankSensors()`: the inputs are not yet known. */
    constructor ()
      ensures Valid() && fresh(sensors) && !Ready()
    {
      sensors := new uint8[TotalInputs];
      initialized := false;
    }

    /** `ready()`: an update has been received. */
    function Ready(): (r: bool)
      reads this
      ensures r == initialized
    {
      initialized
    }

    /** `update(data)`: copy the received inputs, report whether any changed. */
    method Update(data: Data) returns (changed: bool)
      requires Valid() && data.Valid() && data.size <= TotalInputs
      requires data.data != sensors
      modifies sensors, this`initialized
      ensures Valid() && Ready()
      ensures forall i :: 0 <= i < data.size ==> sensors[i] == data.data[i]
      ensures forall i :: data.size <= i < TotalInputs ==> sensors[i] == old(sensors[i])
      ensures changed <==> exists i :: 0 <= i < data.size && old(sensors[i]) != data.data[i]
    {
      changed := false;
      var i := 0;
      while i < data.size
        invariant 0 <= i <= data.size
        invariant forall j :: 0 <= j < i ==> sensors[j] == data.data[j]
        invariant forall j :: i <= j < TotalInputs ==> sensors[j] == old(sensors[j])
        invariant changed <==> exists j :: 0 <= j < i && old(sensors[j]) != data.data[j]
      {
        if sensors[i] != data.data[i] {
          changed := true;
        }
        sensors[i] := data.data[i];
        i := i + 1;
      }
      initialized := true;
    }

    /** `getSensorState(i)`: unknown inputs are off; input 0 is inverted. */
    function SensorState(i: uint8): (on: bool)
      reads this, sensors
      requires Valid()
      ensures on == SensorOn(sensors[..], i)
    {
      if TotalInputs - 1 < i then false
      else if Tank1InvertedFloat == i then sensors[i] == 0
      else sensors[i] != 0
    }

    /** `getValveState(v)`: only valves 1..5 exist. */
    function ValveState(v: uint8): (open: bool)
      reads this, sensors
      requires Valid()
      ensures open == ValveOpen(sensors[..], v)
    {
      if TotalValves < v || 0 == v then false
      else SensorState(ValvePositionOffset + v)
    }

    /** `getFloatState(t, f)`: only floats 1..6 of tanks 1..3 exist; float 1
        of tank 1 is on when either of its two switches says so. */
    function FloatState(t: uint8, f: uint8): (on: bool)
      reads this, sensors
      requires Valid()
      ensures on == FloatOn(sensors[..], t, f)
    {
      if FloatsPerTank < f || 0 == f then false
      else if TotalTanks < t || 0 == t then false
      else if 1 == t then
        if Tank1Float1 == Tank1FloatOffset + f then
          SensorState(Tank1Float1) || SensorState(Tank1InvertedFloat)
        else
          SensorState(Tank1FloatOffset + f)
      else if 2 == t then SensorState(Tank2FloatOffset + f)
      else SensorState(Tank3FloatOffset + f)
    }

    /** `getTankState(t)`: a tank is full when its top float (float 1) is on. */
    function TankState(t: uint8): (full: bool)
      reads this, sensors
      requires Valid()
      ensures full == FloatOn(sensors[..], t, 1)
    {
      FloatState(t, 1)
    }
  }
}
