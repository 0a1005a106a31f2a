/** libraries/Data: a payload of bytes tagged with a 16-bit radio address.
    The payload is always a private copy of the caller's bytes. */
module Payloads {
  import opened Ints

  class Data {
    var initialized: bool
    var address: uint16
    var data: array<uint8>
    var size: uint8

    /** The buffer `_data` always holds exactly `_size` bytes. */
    ghost predicate Valid()
      reads this
    {
      data.Length == size
    }

    /** The payload as a sequence: `getData()[0 .. getSize()]`. */
    function Contents(): (bytes: seq<uint8>)
      reads this, data
      requires Valid()
      ensures |bytes| == size
    {
      data[..]
    }

    /** `Data()`: no address, no payload. */
    constructor ()
      ensures Valid() && !initialized
      ensures address == 0 && size == 0 && Contents() == []
    {
      initialized := false;
      address := 0;
      data := new uint8[0];
      size := 0;
    }

    /** `Data(address, data, size)`. */
    constructor Copy(address: uint16, src: array<uint8>, size: uint8)
      requires size <= src.Length
      ensures Valid() && initialized && fresh(data)
      ensures this.address == address && this.size == size
      ensures Contents() == src[..size]
    {
      initialized := false;
      data := new uint8[0];
      new;
      Init(address, src, size);
    }

    /** `_init`: replaces address, size and payload; the old buffer is
        released and a fresh one receives a copy of `src[..size]`. The
        caller's bytes must not be the buffer being released. */
    method Init(address: uint16, src: array<uint8>, size: uint8)
      requires size <= src.Length && src != data
      modifies this
      ensures Valid() && initialized && fresh(data)
      ensures this.address == address && this.size == size
      ensures Contents() == src[..size]
    {
      var copy := new uint8[size];
      var i := 0;
      while i < size
        invariant 0 <= i <= size
        invariant copy[..i] == src[..i]
      {
        copy[i] := src[i];
        i := i + 1;
      }
      this.address := address;
      this.size := size;
      data := copy;
      initialized := true;
    }

    /** `set`: the same as `_init`. */
    method Set(address: uint16, src: array<uint8>, size: uint8)
      requires size <= src.Length && src != data
      modifies this
      ensures Valid() && initialized && fresh(data)
      ensures this.address == address && this.size == size
      ensures Contents() == src[..size]
    {
      Init(address, src, size);
    }

    /** `hasAddress()`: the address is set (nonzero). */
    function HasAddress(): (r: bool)
      reads this
      ensures r <==> address > 0
    {
      address != 0
    }
  }

  /** Client view of the copy semantics: once `set(address, src, size)`
      returns, writing any byte of the caller's array leaves the payload
      as `set` copied it. */
  method CopySemantics(d: Data, address: uint16, src: array<uint8>, size: uint8, i: nat, x: uint8)
    requires size <= src.Length && src != d.data && i < src.Length
    modifies d, src
    ensures d.Valid() && d.address == address && d.size == size
    ensures d.Contents() == old(src[..size])
    ensures src[i] == x
  {
    d.Set(address, src, size);
    src[i] := x;
  }
}
