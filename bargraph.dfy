/** libraries/Bargraph: a 24-bar tri-colour bargraph divided into equal
    blocks, one per float switch of a tank. `colours` is the display buffer,
    `shown` what was last pushed to the hardware. */
module Bargraphs {
  import opened Ints

  const TotalBars := 24
  const UpdateIntervalMs := 5 * 1000

  datatype Colour = Off | Red | Yellow | Green

  /** The bars of block `block` when the graph has `totalBlocks` blocks:
      `[start, start + size)` with size `24 / totalBlocks`. */
  function BlockSize(totalBlocks: uint8): nat
    requires 0 < totalBlocks
  {
    TotalBars / totalBlocks
  }

  /** The marker colour of a block whose own switch is `state`. */
  function Marker(state: bool): Colour
  {
    if state then Green else Red
  }

  /** The colour of the bars after the marker. */
  function FillColour(fill: bool): Colour
  {
    if fill then Yellow else Off
  }

  /** `setBlock` writes inside the graph exactly when the block lies within it. */
  predicate BlockFits(block: uint8, totalBlocks: uint8)
  {
    0 < totalBlocks && block * BlockSize(totalBlocks) + BlockSize(totalBlocks) <= TotalBars
    && block * BlockSize(totalBlocks) < TotalBars
  }

  class Bargraph {
    var address: uint8
    var lastUpdateTime: uint32
    const colours: array<Colour>
    var shown: seq<Colour>

    ghost predicate Valid()
    {
      colours.Length == TotalBars
    }

    /** `Bargraph(address)` followed by `setup()`'s `reset()`. */
    constructor (address: uint8)
      ensures Valid() && fresh(colours) && this.address == address && lastUpdateTime == 0
      ensures forall i :: 0 <= i < TotalBars ==> colours[i] == Off
      ensures shown == colours[..]
    {
      this.address := address;
      lastUpdateTime := 0;
      colours := new Colour[TotalBars](_ => Off);
      new;
      shown := colours[..];
    }

    /** `reset()`: clear the buffer and push it. */
    method Reset()
      requires Valid()
      modifies colours, this`shown
      ensures forall i :: 0 <= i < TotalBars ==> colours[i] == Off
      ensures shown == colours[..]
    {
      forall i | 0 <= i < TotalBars {
        colours[i] := Off;
      }
      shown := colours[..];
    }

    /** `check()`: push the buffer at most every five seconds, and always on
        the first call. */
    method Check(now: uint32)
      requires Valid()
      modifies this`lastUpdateTime, this`shown
      ensures var due := old(lastUpdateTime) == 0 || Elapsed(now, old(lastUpdateTime)) > UpdateIntervalMs;
              && lastUpdateTime == (if due then now else old(lastUpdateTime))
              && shown == (if due then colours[..] else old(shown))
    {
      if lastUpdateTime == 0 || Elapsed(now, lastUpdateTime) > UpdateIntervalMs {
        lastUpdateTime := now;
        shown := colours[..];
      }
    }

    /** `setBlock(state, fill, block, totalBlocks)`: the first bar of the
        block is the marker, the rest show the fill; other bars are kept.
        (With more than 24 blocks the block is empty and only bar 0, the
        marker, is written.) */
    method SetBlock(state: bool, fill: bool, block: uint8, totalBlocks: uint8)
      requires Valid() && BlockFits(block, totalBlocks)
      modifies colours
      ensures var start := block * BlockSize(totalBlocks);
              var end := start + BlockSize(totalBlocks);
              && colours[start] == Marker(state)
              && (forall i :: start < i < end ==> colours[i] == FillColour(fill))
              && (forall i :: 0 <= i < TotalBars && !(start <= i < end) && i != start ==>
                    colours[i] == old(colours[i]))
    {
      var blockSize := TotalBars / totalBlocks;
      var startBlock := block * blockSize;
      var endBlock := startBlock + blockSize;
      var i := startBlock;
      while i < endBlock
        invariant startBlock <= i <= endBlock
        invariant forall j :: startBlock <= j < i ==> colours[j] == FillColour(fill)
        invariant forall j :: 0 <= j < TotalBars && !(startBlock <= j < i) ==> colours[j] == old(colours[j])
      {
        if fill {
          colours[i] := Yellow;
        } else {
          colours[i] := Off;
        }
        i := i + 1;
      }
      if state {
        colours[startBlock] := Green;
      } else {
        colours[startBlock] := Red;
      }
    }
  }
}
