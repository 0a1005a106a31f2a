/** libraries/Counter: the remaining pump time as MM:SS on a four-digit
    seven-segment display whose position 2 is the colon. */
module Counters {
  import opened Ints

  const ColonPosition := 2
  const Positions := 5

  /** What one position of the display buffer holds. */
  datatype Cell = Blank | Digit(n: int) | Colon

  /** The four digits written for a positive count of seconds. */
  datatype Digits = Digits(minuteTens: int, minuteOnes: int, secondTens: int, secondOnes: int)

  /** The digit split of `check()` for `0 < seconds`: minutes = seconds / 60
      in positions 0 and 1, the remaining seconds in positions 3 and 4. */
  function SplitDigits(seconds: int32): (d: Digits)
    requires 0 < seconds
    ensures 60 * (10 * d.minuteTens + d.minuteOnes) + 10 * d.secondTens + d.secondOnes == seconds
    ensures 0 <= d.minuteTens && 0 <= d.minuteOnes <= 9
    ensures 0 <= d.secondTens <= 5 && 0 <= d.secondOnes <= 9
    ensures seconds < 6000 ==> d.minuteTens <= 9
  {
    var minutes := seconds / 60;
    var remainder := seconds % 60;
    Digits(minutes / 10, minutes % 10, remainder / 10, remainder % 10)
  }

  /** The colon is lit during the first half of every second. */
  function ColonLit(now: uint32): bool
  {
    now % 1000 < 500
  }

  /** The buffer of `Adafruit_7segment` after `clear()`. */
  const Cleared: seq<Cell> := [Blank, Blank, Blank, Blank, Blank]

  /** What `check(show, seconds)` leaves in the display buffer at `now`. */
  function Face(show: bool, seconds: int32, now: uint32): seq<Cell>
  {
    if !show then Cleared
    else
      var colon := if ColonLit(now) then Colon else Blank;
      if 0 < seconds then
        var d := SplitDigits(seconds);
        [Digit(d.minuteTens), Digit(d.minuteOnes), colon, Digit(d.secondTens), Digit(d.secondOnes)]
      else if ColonLit(now) then [Digit(0), Digit(0), Colon, Digit(0), Digit(0)]
      else Cleared
  }

  /** The number shown by the four digit positions, read back as seconds. */
  function FaceSeconds(cells: seq<Cell>): int
    requires |cells| == Positions
  {
    60 * (10 * DigitValue(cells[0]) + DigitValue(cells[1])) + 10 * DigitValue(cells[3]) + DigitValue(cells[4])
  }

  function DigitValue(c: Cell): int
  {
    if c.Digit? then c.n else 0
  }

  /** The display reads back the count while it is positive (MM:SS, with the
      minute tens unbounded past 99 minutes), flashes 00:00 with the colon once
      it is not, is blank while not shown, and never puts a digit on the colon. */
  lemma FaceShows(show: bool, seconds: int32, now: uint32)
    ensures |Face(show, seconds, now)| == Positions
    ensures !Face(show, seconds, now)[ColonPosition].Digit?
    ensures !show ==> Face(show, seconds, now) == Cleared
    ensures show && 0 < seconds ==>
              && FaceSeconds(Face(show, seconds, now)) == seconds
              && (forall k :: 0 <= k < Positions && k != ColonPosition ==> Face(show, seconds, now)[k].Digit?)
              && (Face(show, seconds, now)[ColonPosition] == Colon <==> ColonLit(now))
    ensures show && seconds <= 0 ==>
              Face(show, seconds, now) == (if ColonLit(now) then [Digit(0), Digit(0), Colon, Digit(0), Digit(0)] else Cleared)
  {
  }

  class Counter {
    var address: uint8
    var cells: seq<Cell>

    /** Five positions, and the colon position never holds a number. */
    ghost predicate Valid()
      reads this
    {
      |cells| == Positions && !cells[ColonPosition].Digit?
    }

    /** `Counter(address)` followed by `setup()`'s `reset()`. */
    constructor (address: uint8)
      ensures Valid() && this.address == address && cells == Cleared
    {
      this.address := address;
      cells := Cleared;
    }

    /** `reset()`: clear the display. */
    method Reset()
      modifies this
      ensures Valid() && cells == Cleared && address == old(address)
    {
      cells := Cleared;
    }

    /** `writeDigitNum(position, n)` on one of the four digit positions. */
    method WriteDigit(position: nat, n: int)
      requires Valid() && position < Positions && position != ColonPosition
      modifies this
      ensures Valid() && cells == old(cells)[position := Digit(n)] && address == old(address)
    {
      cells := cells[position := Digit(n)];
    }

    /** `drawColon(lit)`. */
    method DrawColon(lit: bool)
      requires Valid()
      modifies this
      ensures Valid() && address == old(address)
      ensures cells == old(cells)[ColonPosition := if lit then Colon else Blank]
    {
      cells := cells[ColonPosition := if lit then Colon else Blank];
    }

    /** `check(show, seconds)`: show MM:SS while the count is positive, flash
        00:00 once it is not, and clear the display when not shown. */
    method Check(show: bool, seconds: int32, now: uint32)
      requires Valid()
      modifies this
      ensures Valid() && address == old(address)
      ensures cells == Face(show, seconds, now)
    {
      if show {
        var lit := ColonLit(now);
        DrawColon(lit);
        if 0 < seconds {
          var minutes := seconds / 60;
          WriteDigit(0, minutes / 10);
          WriteDigit(1, minutes % 10);
          var remainder := seconds % 60;
          WriteDigit(3, remainder / 10);
          WriteDigit(4, remainder % 10);
        } else {
          if lit {
            WriteDigit(0, 0);
            WriteDigit(1, 0);
            WriteDigit(3, 0);
            WriteDigit(4, 0);
          } else {
            cells := Cleared;
          }
        }
      } else {
        Reset();
      }
    }
  }
}
