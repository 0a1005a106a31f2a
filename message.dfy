/** libraries/Message: a text that scrolls right-to-left across two 4-character
    alphanumeric displays, one character per step. Only the 8-character
    scroll buffer is modelled; what it shows is what the displays show. */
module Messages {
  import opened Ints

  const AlphaCharSize := 4
  const TotalCharSize := 8
  const MaxSize := 250
  const ScrollDelayMs := 200

  const Blank8: seq<char> := [' ', ' ', ' ', ' ', ' ', ' ', ' ', ' ']

  /** `strlen` of a C string: the characters before the first NUL (the end of
      the sequence counts as a NUL). */
  function Strlen(s: seq<char>): (n: nat)
    ensures n <= |s|
    ensures forall k :: 0 <= k < n ==> s[k] != '\0'
    ensures n < |s| ==> s[n] == '\0'
  {
    if s == [] || s[0] == '\0' then 0 else 1 + Strlen(s[1..])
  }

  /** The text as it scrolls by: eight blanks, the message, eight blanks. */
  function Track(text: seq<char>): seq<char>
  {
    Blank8 + text + Blank8
  }

  /** What the displays show at scroll position `pos`. */
  function Window(text: seq<char>, pos: nat): (w: seq<char>)
    requires pos <= |text| + TotalCharSize
    ensures |w| == TotalCharSize
  {
    Track(text)[pos .. pos + TotalCharSize]
  }

  /** The character that enters on the right when stepping from `pos`. */
  function Entering(text: seq<char>, pos: nat): char
  {
    if |text| <= pos then ' ' else text[pos]
  }

  /** One scroll step shifts the window left and brings in the next character;
      the window starts and ends blank. */
  lemma {:induction false} WindowStep(text: seq<char>, pos: nat)
    requires pos < |text| + TotalCharSize
    ensures Window(text, pos + 1) == Window(text, pos)[1..] + [Entering(text, pos)]
    ensures Window(text, 0) == Blank8 && Window(text, |text| + TotalCharSize) == Blank8
  {
    var t := Track(text);
    assert t[pos + TotalCharSize] == Entering(text, pos) by {
      if pos < |text| {
        assert t[pos + TotalCharSize] == text[pos];
      }
    }
    assert Window(text, 0) == Blank8;
    assert Window(text, |text| + TotalCharSize) == Blank8;
  }

  class Message {
    var address1: uint8
    var address2: uint8
    const message: array<char>
    var messageSize: uint8
    var lastScrollTime: uint32
    var scrollPosition: uint8
    const scrollBuffer: array<char>

    /** The message text, as far as `_messageSize` reaches. */
    function Text(): (t: seq<char>)
      reads this, message
      requires messageSize <= message.Length
      ensures |t| == messageSize
    {
      message[..messageSize]
    }

    /** Buffer sizes, and (for messages short enough for the 8-bit position
        to reach the end) the scroll buffer showing the window at the current
        position. */
    ghost predicate Valid()
      reads this, message, scrollBuffer
    {
      && message.Length == MaxSize
      && scrollBuffer.Length == TotalCharSize
      && message != scrollBuffer
      && messageSize < MaxSize
      && (messageSize + TotalCharSize <= 255 ==>
            && scrollPosition <= messageSize + TotalCharSize
            && scrollBuffer[..] == Window(message[..messageSize], scrollPosition))
    }

    /** Scrolling has shown the whole message and blanked the displays. */
    function Done(): (done: bool)
      reads this
    {
      messageSize + TotalCharSize <= scrollPosition
    }

    /** `Message(address_1, address_2)`, followed by `setup()`'s `reset()`. */
    constructor (address1: uint8, address2: uint8)
      ensures Valid() && fresh(message) && fresh(scrollBuffer)
      ensures this.address1 == address1 && this.address2 == address2
      ensures messageSize == 0 && scrollPosition == 0 && lastScrollTime == 0
      ensures scrollBuffer[..] == Blank8
    {
      this.address1 := address1;
      this.address2 := address2;
      message := new char[MaxSize](_ => '\0');
      messageSize := 0;
      lastScrollTime := 0;
      scrollPosition := 0;
      scrollBuffer := new char[TotalCharSize](_ => ' ');
    }

    /** `reset()`: blank the buffer and rewind. */
    method Reset()
      requires message.Length == MaxSize && scrollBuffer.Length == TotalCharSize
      requires message != scrollBuffer && messageSize < MaxSize
      modifies this`lastScrollTime, this`scrollPosition, scrollBuffer
      ensures Valid()
      ensures scrollBuffer[..] == Blank8 && scrollPosition == 0 && lastScrollTime == 0
    {
      var i := 0;
      while i < TotalCharSize
        invariant 0 <= i <= TotalCharSize
        invariant forall j :: 0 <= j < i ==> scrollBuffer[j] == ' '
        modifies scrollBuffer
      {
        scrollBuffer[i] := ' ';
        i := i + 1;
      }
      lastScrollTime := 0;
      scrollPosition := 0;
      assert scrollBuffer[..] == Blank8;
      assert Window(message[..messageSize], 0) == Blank8;
    }

    /** `setMessage(msg)`: keep at most `MaxSize - 1` characters of the C
        string `msg`, NUL-terminated, then reset the scroll. */
    method SetMessage(msg: seq<char>)
      requires Valid()
      modifies this`messageSize, this`lastScrollTime, this`scrollPosition, message, scrollBuffer
      ensures Valid()
      ensures messageSize as int == if Strlen(msg) < MaxSize - 1 then Strlen(msg) else MaxSize - 1
      ensures Text() == msg[..messageSize]
      ensures message[messageSize] == '\0'
      ensures scrollBuffer[..] == Blank8 && scrollPosition == 0 && lastScrollTime == 0
    {
      // strncpy(_message, msg, MaxSize - 1): copy up to the NUL, pad with NULs
      var n := Strlen(msg);
      var i := 0;
      while i < MaxSize - 1
        invariant 0 <= i <= MaxSize - 1
        invariant forall j :: 0 <= j < i ==> message[j] == if j < n then msg[j] else '\0'
        modifies message
      {
        message[i] := if i < n then msg[i] else '\0';
        i := i + 1;
      }
      message[MaxSize - 1] := '\0';
      messageSize := if n < MaxSize - 1 then n else MaxSize - 1;
      assert message[..messageSize] == msg[..messageSize];
      Reset();
    }

    /** `check()`: every 200 ms, shift one character in until the message has
        scrolled off. `_scrollPosition` is a `uint8_t` and wraps. */
    method Check(now: uint32)
      requires Valid()
      modifies this`lastScrollTime, this`scrollPosition, scrollBuffer
      ensures Valid() && Text() == old(Text())
      ensures var step := !old(Done()) && Elapsed(now, old(lastScrollTime)) > ScrollDelayMs;
              && (step ==>
                    && scrollBuffer[..] == old(scrollBuffer[..])[1..] + [Entering(Text(), old(scrollPosition) as nat)]
                    && scrollPosition == Wrap8(old(scrollPosition) + 1)
                    && lastScrollTime == now)
              && (!step ==>
                    && scrollBuffer[..] == old(scrollBuffer[..])
                    && scrollPosition == old(scrollPosition)
                    && lastScrollTime == old(lastScrollTime))
    {
      if messageSize + TotalCharSize <= scrollPosition {
        return;
      }
      if Elapsed(now, lastScrollTime) > ScrollDelayMs {
        ghost var text := Text();
        ghost var pos := scrollPosition as nat;
        var c := ' ';
        if scrollPosition < messageSize {
          c := message[scrollPosition];
        }
        assert c == Entering(text, pos);
        ghost var before := scrollBuffer[..];
        ShiftIn(c);
        assert Text() == text;
        lastScrollTime := now;
        scrollPosition := Wrap8(scrollPosition + 1);
        if messageSize + TotalCharSize <= 255 {
          WindowStep(text, pos);
          assert before == Window(text, pos);
          assert scrollPosition as nat == pos + 1;
          assert scrollBuffer[..] == Window(text, pos + 1);
        }
      }
    }

    /** The loop of `check()`: every slot takes its right neighbour's
        character and the last slot takes `c`. */
    method ShiftIn(c: char)
      requires scrollBuffer.Length == TotalCharSize
      modifies scrollBuffer
      ensures scrollBuffer[..] == old(scrollBuffer[..])[1..] + [c]
    {
      var i := 0;
      while i < TotalCharSize
        invariant 0 <= i <= TotalCharSize
        invariant forall j :: 0 <= j < i && j < TotalCharSize - 1 ==> scrollBuffer[j] == old(scrollBuffer[j + 1])
        invariant forall j :: i <= j < TotalCharSize ==> scrollBuffer[j] == old(scrollBuffer[j])
        invariant i == TotalCharSize ==> scrollBuffer[TotalCharSize - 1] == c
      {
        if i == TotalCharSize - 1 {
          scrollBuffer[i] := c;
        } else {
          scrollBuffer[i] := scrollBuffer[i + 1];
        }
        i := i + 1;
      }
    }
  }

  /** For a message of at most 247 characters, a message that has not
      finished scrolling is moved by each due step exactly one position
      closer to the end, without passing it. */
  lemma ScrollReachesEnd(m: Message)
    requires m.messageSize + TotalCharSize <= 255 && !m.Done()
    ensures Wrap8(m.scrollPosition + 1) == m.scrollPosition + 1 <= m.messageSize + TotalCharSize
  {
  }

  /** A message of 248 or 249 characters never finishes scrolling: the 8-bit
      `_scrollPosition` cannot reach `_messageSize + 8`, and from 255 the next
      step wraps it to 0, so scrolling starts over. */
  lemma ScrollWrapsForLongMessages(m: Message)
    requires 255 < m.messageSize + TotalCharSize
    ensures !m.Done()
    ensures m.scrollPosition == 255 ==> Wrap8(m.scrollPosition + 1) == 0
  {
  }
}
