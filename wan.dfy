/** libraries/WAN: the XBee radio link. The XBee library is outside the
    model: one poll of the radio is an abstract `Response`, and a send is
    recorded in a ghost log of outgoing frames. */
module Radio {
  import opened Ints
  import opened Payloads

  const FamilyAddress: uint32 := 0x0013A200
  const BaseStationAddress: uint32 := 0x40C59926
  const RemoteSensorAddress: uint32 := 0x40C59899
  const PumpSwitchAddress: uint32 := 0x40C31683

  /** What one `readPacket()` leaves in `getResponse()`. */
  datatype Response =
    | Nothing
    | ReadError(code: uint8)
    | RxPacket(senderLsb: uint32, payload: seq<uint8>)
    | TxStatus(delivered: bool)
    | Unexpected(apiId: uint8)

  /** A ZigBee frame handed to the radio: 64-bit destination and payload. */
  datatype Outgoing = Outgoing(msb: uint32, lsb: uint32, payload: seq<uint8>)

  /** An RX frame whose length fits the `uint8_t` `getDataLength()`. */
  predicate WellFormed(r: Response)
  {
    r.RxPacket? ==> |r.payload| < 0x100
  }

  function GetBaseStationAddress(): (a: uint32)
    ensures IsBaseStationAddress(a)
  {
    BaseStationAddress
  }

  function GetRemoteSensorAddress(): (a: uint32)
    ensures IsRemoteSensorAddress(a)
  {
    RemoteSensorAddress
  }

  function GetPumpSwitchAddress(): (a: uint32)
    ensures IsPumpSwitchAddress(a)
  {
    PumpSwitchAddress
  }

  predicate IsBaseStationAddress(a: uint32)
  {
    BaseStationAddress == a
  }

  predicate IsRemoteSensorAddress(a: uint32)
  {
    RemoteSensorAddress == a
  }

  predicate IsPumpSwitchAddress(a: uint32)
  {
    PumpSwitchAddress == a
  }

  /** The three node roles have distinct addresses: an address names at most
      one role, and each getter names only its own. */
  lemma AddressesNameOneRole(a: uint32)
    ensures !(IsBaseStationAddress(a) && IsRemoteSensorAddress(a))
    ensures !(IsBaseStationAddress(a) && IsPumpSwitchAddress(a))
    ensures !(IsRemoteSensorAddress(a) && IsPumpSwitchAddress(a))
    ensures IsBaseStationAddress(a) <==> a == GetBaseStationAddress()
    ensures IsRemoteSensorAddress(a) <==> a == GetRemoteSensorAddress()
    ensures IsPumpSwitchAddress(a) <==> a == GetPumpSwitchAddress()
  {
  }

  /** `Data` keeps a 16-bit address, so the address of a received payload
      is never one of the 32-bit role addresses. */
  lemma SixteenBitAddressNamesNoRole(d: Data)
    ensures !IsBaseStationAddress(d.address) && !IsRemoteSensorAddress(d.address) && !IsPumpSwitchAddress(d.address)
  {
  }

  class WAN {
    var dtrPin: uint8
    var ctsPin: uint8
    var sleepEnabled: bool
    /** The level on the DTR (sleep request) line; HIGH asks the radio to sleep. */
    var dtr: bool
    /** Every level written to DTR, oldest first. */
    ghost var dtrWrites: seq<bool>
    /** Every frame handed to the radio, oldest first. */
    ghost var sent: seq<Outgoing>

    /** Between calls the radio sleeps exactly when sleeping is enabled. */
    ghost predicate Valid()
      reads this
    {
      dtr == sleepEnabled
    }

    /** `WAN(serial)` / `WAN(serial, statusLed)`. */
    constructor ()
      ensures Valid() && !sleepEnabled && dtrPin == 0 && ctsPin == 0
      ensures dtrWrites == [] && sent == []
    {
      dtrPin := 0;
      ctsPin := 0;
      sleepEnabled := false;
      dtr := false;
      dtrWrites := [];
      sent := [];
    }

    method WriteDtr(high: bool)
      modifies this`dtr, this`dtrWrites
      ensures dtr == high && dtrWrites == old(dtrWrites) + [high]
    {
      dtr := high;
      dtrWrites := dtrWrites + [high];
    }

    /** `_sleep()`: raise DTR when sleeping is enabled. */
    method Sleep()
      modifies this`dtr, this`dtrWrites
      ensures sleepEnabled ==> dtr && dtrWrites == old(dtrWrites) + [true]
      ensures !sleepEnabled ==> dtr == old(dtr) && dtrWrites == old(dtrWrites)
    {
      if sleepEnabled {
        WriteDtr(true);
      }
    }

    /** `_wake()`: lower DTR when sleeping is enabled (the wait for CTS is
        not modelled: the radio is taken to be ready at once). */
    method Wake()
      modifies this`dtr, this`dtrWrites
      ensures sleepEnabled ==> !dtr && dtrWrites == old(dtrWrites) + [false]
      ensures !sleepEnabled ==> dtr == old(dtr) && dtrWrites == old(dtrWrites)
    {
      if sleepEnabled {
        WriteDtr(false);
      }
    }

    /** `enableSleep(dtrPin, ctsPin)`: configure the lines and go to sleep. */
    method EnableSleep(dtrPin: uint8, ctsPin: uint8)
      modifies this
      ensures Valid() && sleepEnabled && dtr
      ensures this.dtrPin == dtrPin && this.ctsPin == ctsPin
      ensures dtrWrites == old(dtrWrites) + [false, true] && sent == old(sent)
    {
      this.dtrPin := dtrPin;
      this.ctsPin := ctsPin;
      WriteDtr(false);
      sleepEnabled := true;
      Sleep();
    }

    /** `disableSleep()`: wake the radio, then stop putting it to sleep. */
    method DisableSleep()
      requires Valid()
      modifies this`dtr, this`dtrWrites, this`sleepEnabled
      ensures Valid() && !sleepEnabled && !dtr
      ensures dtrWrites == old(dtrWrites) + (if old(sleepEnabled) then [false] else [])
    {
      Wake();
      sleepEnabled := false;
    }

    /** `receive(data)`: poll the radio once. Only an RX frame is reported and
        copied into `data`, its sender's low 32 address bits truncated to the
        16 bits `Data` keeps; every other outcome leaves `data` untouched. */
    method Receive(data: Data, response: Response) returns (received: bool)
      requires Valid() && WellFormed(response)
      modifies this`dtr, this`dtrWrites, data
      ensures Valid() && sleepEnabled == old(sleepEnabled) && sent == old(sent)
      ensures dtrWrites == old(dtrWrites) + (if sleepEnabled then [false, true] else [])
      ensures received <==> response.RxPacket?
      ensures response.RxPacket? ==>
                && data.Valid() && fresh(data.data)
                && data.address == Wrap16(response.senderLsb)
                && data.size == |response.payload|
                && data.Contents() == response.payload
      ensures !response.RxPacket? ==>
                && data.address == old(data.address) && data.size == old(data.size)
                && data.data == old(data.data) && data.initialized == old(data.initialized)
    {
      Wake();
      received := false;
      match response {
        case RxPacket(sender, payload) =>
          var buffer := new uint8[|payload|](i requires 0 <= i < |payload| => payload[i]);
          data.Set(Wrap16(sender), buffer, |payload|);
          received := true;
        case TxStatus(_) =>
        case Unexpected(_) =>
        case ReadError(_) =>
        case Nothing =>
      }
      Sleep();
    }

    /** `transmit(data)`: send `data` to the family address plus its 16-bit
        address; fire and forget, so the answer is always true. */
    method Transmit(data: Data) returns (ok: bool)
      requires Valid() && data.Valid()
      modifies this`dtr, this`dtrWrites, this`sent
      ensures ok
      ensures Valid() && sleepEnabled == old(sleepEnabled)
      ensures dtrWrites == old(dtrWrites) + (if sleepEnabled then [false, true] else [])
      ensures sent == old(sent) + [Outgoing(FamilyAddress, data.address, data.Contents())]
    {
      Wake();
      sent := sent + [Outgoing(FamilyAddress, data.address, data.Contents())];
      Sleep();
      ok := true;
    }
  }
}
