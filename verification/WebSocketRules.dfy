/**
 What each frame a client may send does, and why any other is refused, by the numbers
 of RFC 6455 (sections 5.2, 5.5, 7.4.1; internal/sendspin/ws.go:196-330).
 */
module WebSocketRules {
  import opened WebSocketModel
  import opened WebSocketHeads
  import opened WebSocketProofs
  import opened Wrappers

  import GoInt

  /** A frame of this side: whole, unmasked, and no longer than a control frame may be. */
  function Short(op: Byte, payload: seq<Byte>): seq<Byte>
    requires op < 16 && |payload| <= 125
  {
    [0x80 + op, |payload|] + payload
  }

  lemma WritingShort(c: Conn, op: Byte, payload: seq<Byte>)
    requires op < 16 && |payload| <= 125
    ensures Write(c, op, payload) ==
            if c.willing == 0 then (c, false)
            else (c.(outbox := c.outbox + Short(op, payload), willing := c.willing - 1), true)
  {
    assert c.outbox + ([0x80 + op, |payload|] + []) + payload == c.outbox + Short(op, payload);
  }

  /** What a data frame makes of the message so far. */
  predicate Adds(turn: Turn, limit: nat, kind: Byte, msg: seq<Byte>, fin: bool) {
    if |msg| > limit then turn == Finished(Err(MessageTooBig))
    else if fin then turn == Finished(Ok(Message(kind == 2, msg)))
    else turn == Again(Building(kind, true, msg))
  }

  function Number(high: nat, low: nat): nat {
    256 * high + low
  }

  /** A ping is answered, a pong passed over, a close taken for an end and sent back. */
  predicate ControlRule(c: Conn, b: Building, op: Byte, data: seq<Byte>, d: Conn, turn: Turn)
    requires op < 16 && |data| <= 125
  {
    var echoed := if c.willing == 0 then c else c.(outbox := c.outbox + Short(op, data), willing := c.willing - 1);
    if op == 8 then
      if |data| == 1 then d == c && turn == Finished(Err(OneByteClose))
      else
        && d == echoed
        && turn == Finished(Err(if data == [] then Closed(1005, []) else Closed(Number(data[0], data[1]), data[2..])))
    else if op == 9 then
      if c.willing == 0 then d == c && turn == Finished(Err(WriteFailed))
      else d == c.(outbox := c.outbox + Short(10, data), willing := c.willing - 1) && turn == Again(b)
    else if op == 10 then d == c && turn == Again(b)
    else d == c && turn == Finished(Err(UnknownOpcode))
  }

  predicate DataRule(c: Conn, b: Building, op: Byte, fin: bool, data: seq<Byte>, d: Conn, turn: Turn) {
    && d == c
    && if op == 0 then
         if b.fragmented then Adds(turn, c.limit, b.kind, b.msg + data, fin) else turn == Finished(Err(NothingInFlight))
       else if op == 1 || op == 2 then
         if b.fragmented then turn == Finished(Err(BeganInFlight)) else Adds(turn, c.limit, op, data, fin)
       else turn == Finished(Err(UnknownOpcode))
  }

  lemma ValueOfTwo(x: Byte, y: Byte)
    ensures Value([x, y]) == Number(x, y)
  {
    assert [x, y][..1] == [x] && [x][..0] == [];
    assert Value([x]) == x;
  }

  /** Every frame a client may send, within the limit, is taken off the stream whole and does this. */
  lemma WhatAFrameDoes(c: Conn, b: Building, f: Frame, rest: seq<Byte>)
    requires WellFormed(f) && |f.data| <= c.limit && c.inbox == Encode(f) + rest
    ensures var (d, turn) := TakeFrame(c, b);
      if f.op >= 8 then |f.data| <= 125 && f.fin && ControlRule(c.(inbox := rest), b, f.op, f.data, d, turn)
      else DataRule(c.(inbox := rest), b, f.op, f.fin, f.data, d, turn)
  {
    FrameIsTaken(c, b, f, rest);
    hide TakeFrame, Encode, Write;
    var r := c.(inbox := rest);
    if f.op >= 8 {
      WritingShort(r, f.op, f.data);
      WritingShort(r, 10, f.data);
      if |f.data| >= 2 {
        assert f.data[..2] == [f.data[0], f.data[1]];
        ValueOfTwo(f.data[0], f.data[1]);
      }
    }
  }

  // ---------- how long Read goes on ----------

  function Pongs(n: nat, mask: Mask): seq<Byte> {
    if n == 0 then [] else Encode(Frame(true, 10, mask, [])) + Pongs(n - 1, mask)
  }

  lemma APongIsPassedOver(c: Conn, b: Building, mask: Mask, rest: seq<Byte>)
    requires c.inbox == Encode(Frame(true, 10, mask, [])) + rest
    ensures TakeFrame(c, b) == (c.(inbox := rest), Again(b))
  {
    FrameIsTaken(c, b, Frame(true, 10, mask, []), rest);
    hide TakeFrame, Encode;
  }

  lemma {:induction false} PongsArePassedOver(c: Conn, b: Building, n: nat, mask: Mask, taken: nat, rest: seq<Byte>)
    requires taken + n <= 4096 && c.inbox == Pongs(n, mask) + rest
    ensures ReadFrom(c, b, taken) == ReadFrom(c.(inbox := rest), b, taken + n)
    decreases n
  {
    hide TakeFrame, Encode;
    if n == 0 {
      assert Pongs(0, mask) + rest == rest;
    } else {
      var later := Pongs(n - 1, mask) + rest;
      assert c.inbox == Encode(Frame(true, 10, mask, [])) + later;
      APongIsPassedOver(c, b, mask, later);
      PongsArePassedOver(c.(inbox := later), b, n - 1, mask, taken + 1, rest);
    }
  }

  /** A reader takes 4096 frames for one message, and not one more. */
  lemma ReadTakes4096Frames(c: Conn, n: nat, mask: Mask, f: Frame, rest: seq<Byte>)
    requires WellFormed(f) && f.fin && (f.op == 1 || f.op == 2) && |f.data| <= c.limit
    requires c.inbox == Pongs(n, mask) + (Encode(f) + rest)
    ensures n <= 4095 ==> Read(c).1 == Ok(Message(f.op == 2, f.data))
    ensures n >= 4096 ==> Read(c).1 == Err(TooManyFrames)
  {
    hide TakeFrame, Encode;
    if n <= 4095 {
      PongsArePassedOver(c, NOTHING, n, mask, 0, Encode(f) + rest);
      WhatAFrameDoes(c.(inbox := Encode(f) + rest), NOTHING, f, rest);
    } else {
      SplitPongs(4096, n - 4096, mask);
      var later := Pongs(n - 4096, mask) + (Encode(f) + rest);
      assert c.inbox == Pongs(4096, mask) + later;
      PongsArePassedOver(c, NOTHING, 4096, mask, 0, later);
    }
  }

  lemma {:induction false} SplitPongs(a: nat, b: nat, mask: Mask)
    ensures Pongs(a + b, mask) == Pongs(a, mask) + Pongs(b, mask)
    decreases a
  {
    hide Encode;
    if a > 0 {
      SplitPongs(a - 1, b, mask);
    }
  }

  // ---------- why a head is refused ----------

  /** The length a head tells, in the seven bits of its second byte or in the bytes after it. */
  predicate LengthRule(code: Byte, inbox: seq<Byte>, r: Result<nat>) {
    if code < 126 then r == Ok(code)
    else
      var k := if code == 126 then 2 else 8;
      if |inbox| < k then r == Err(EndOfStream)
      else
        var n := Value(inbox[..k]);
        if code == 127 && inbox[0] >= 0x80 then r == Err(HighBit)
        else if n <= (if code == 126 then 125 else 65535) then r == Err(NotMinimal)
        else r == Ok(n)
  }

  lemma HighBitOf(b: seq<Byte>)
    requires |b| == 8
    ensures Value(b) >= LENGTH_LIMIT <==> b[0] >= 0x80
  {
    ValueOfHead(b);
    DigitsOfValue(b[1..]);
    SevenBytes();
    hide Value, Power256;
    HalfOrMore(b[0], 0x100_0000_0000_0000, Value(b[1..]));
  }

  lemma SevenBytes()
    ensures Power256(7) == 0x100_0000_0000_0000
  {
    assert Power256(4) == 0x1_0000_0000;
    assert Power256(7) == 256 * Power256(6) == 65536 * Power256(5) == 0x100_0000 * Power256(4);
  }

  lemma HalfOrMore(high: nat, unit: nat, low: nat)
    requires low < unit
    ensures high * unit + low >= 128 * unit <==> high >= 128
  {
    if high >= 128 {
      GoInt.MulMono(unit, 128, high);
    } else {
      GoInt.MulMono(unit, high, 127);
    }
  }

  lemma {:induction false} ValueOfHead(b: seq<Byte>)
    requires b != []
    ensures Value(b) == b[0] * Power256(|b| - 1) + Value(b[1..])
    decreases |b|
  {
    if |b| == 1 {
      assert b[..0] == [] && b[1..] == [];
    } else {
      var init := b[..|b| - 1];
      ValueOfHead(init);
      assert b[1..][..|b| - 2] == init[1..];
      assert b[0] * (256 * Power256(|b| - 2)) == b[0] * Power256(|b| - 2) * 256;
    }
  }

  lemma WhyALengthIsRefused(code: Byte, inbox: seq<Byte>)
    requires code < 128
    ensures LengthRule(code, inbox, ReadLength(code, inbox).1)
  {
    if code == 127 && |inbox| >= 8 {
      HighBitOf(inbox[..8]);
    }
  }

  /**
   Why a head is refused, in this order: reserved bits, a length told wrong, a control
   frame that is not final or longer than 125, no mask. Otherwise it says what its bytes do.
   */
  lemma WhyAHeadIsRefused(first: Byte, second: Byte, inbox: seq<Byte>)
    ensures var r := ReadHeader([first, second] + inbox).1;
      var length := ReadLength(second % 128, inbox).1;
      if first % 128 >= 16 then r == Err(ReservedBits)
      else if length.Err? then r == Err(length.error)
      else if first % 16 >= 8 && first < 128 then r == Err(FragmentedControl)
      else if first % 16 >= 8 && length.value > 125 then r == Err(LongControl)
      else if second < 128 then r == Err(Unmasked)
      else r == Err(EndOfStream)
           || (r.Ok? && r.value.fin == (first >= 128) && r.value.op == first % 16 && r.value.length == length.value)
  {
    var all := [first, second] + inbox;
    assert all[2..] == inbox && all[..2] == [first, second];
    ReadingOn(first, second, inbox);
    hide ReadHeader, ReadOn;
    assert ReadHeader(all) == ReadOn(first, second, inbox) by { HeadGoesOn(all, first, second, inbox); }
  }

  lemma HeadGoesOn(all: seq<Byte>, first: Byte, second: Byte, inbox: seq<Byte>)
    requires |all| >= 2 && all[0] == first && all[1] == second && all[2..] == inbox
    ensures ReadHeader(all) == ReadOn(first, second, inbox)
  {
    hide ReadOn;
  }

  lemma ReadingOn(first: Byte, second: Byte, inbox: seq<Byte>)
    ensures var r := ReadOn(first, second, inbox).1;
      var length := ReadLength(second % 128, inbox).1;
      if first % 128 >= 16 then r == Err(ReservedBits)
      else if length.Err? then r == Err(length.error)
      else if first % 16 >= 8 && first < 128 then r == Err(FragmentedControl)
      else if first % 16 >= 8 && length.value > 125 then r == Err(LongControl)
      else if second < 128 then r == Err(Unmasked)
      else r == Err(EndOfStream)
           || (r.Ok? && r.value.fin == (first >= 128) && r.value.op == first % 16 && r.value.length == length.value)
  {
    hide ReadLength;
  }

  /** A frame longer than the limit is refused before any of it is read. */
  lemma ALongFrameIsRefused(inbox: seq<Byte>, limit: nat, h: Header)
    ensures h.length > limit ==> ReadPayload(inbox, limit, h) == (inbox, Err(FrameTooBig))
    ensures h.length <= limit && |inbox| < h.length ==> ReadPayload(inbox, limit, h).1 == Err(EndOfStream)
    ensures h.length <= limit && |inbox| >= h.length ==> ReadPayload(inbox, limit, h).1.Ok?
  {
  }
}
