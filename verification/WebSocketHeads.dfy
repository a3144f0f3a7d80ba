/**
 The head of a frame: what `write` emits for a length is the one encoding of it
 that `readHeader` accepts (internal/sendspin/ws.go:196-250, 331-351).
 */
module WebSocketHeads {
  import opened WebSocketModel
  import opened Wrappers

  lemma {:induction false} ValueOfDigits(n: nat, k: nat)
    requires n < Power256(k)
    ensures Value(Digits(n, k)) == n
  {
    if k > 0 {
      ValueOfDigits(n / 256, k - 1);
      assert Digits(n, k)[..k - 1] == Digits(n / 256, k - 1);
    }
  }

  lemma {:induction false} DigitsOfValue(b: seq<Byte>)
    ensures Value(b) < Power256(|b|)
    ensures Digits(Value(b), |b|) == b
    decreases |b|
  {
    if b != [] {
      var init, last := b[..|b| - 1], b[|b| - 1];
      DigitsOfValue(init);
      LastDigit(Value(init), last);
      assert b == init + [last];
    }
  }

  lemma LastDigit(high: nat, last: Byte)
    ensures (high * 256 + last) / 256 == high && (high * 256 + last) % 256 == last
  {
  }

  lemma Powers()
    ensures Power256(2) == 0x1_0000
    ensures Power256(8) == 2 * LENGTH_LIMIT
  {
    assert Power256(4) == 0x1_0000_0000;
    assert Power256(6) == 256 * Power256(5) == 65536 * Power256(4);
  }

  function FirstOf(h: Header): Byte {
    if h.fin then WithTop(h.op) else h.op
  }

  function SecondOf(h: Header): Byte {
    WithTop(LengthCode(h.length))
  }

  /** The head a client's frame has: masked, and perhaps not the last. */
  function ClientHead(h: Header): seq<Byte> {
    [FirstOf(h), SecondOf(h)] + LengthBytes(h.length) + h.mask
  }

  /** What RFC 6455 allows the head of a client's frame to say. */
  predicate LegalHead(h: Header) {
    && h.op <= 0x0f && h.length < LENGTH_LIMIT
    && (IsControl(h.op) ==> h.fin && h.length <= MAX_CONTROL_PAYLOAD)
  }

  lemma FirstByte(h: Header)
    requires h.op <= 0x0f
    ensures var b := FirstOf(h); !IsReserved(b) && HasTop(b) == h.fin && OpOf(b) == h.op
  {
  }

  lemma FirstByteBack(b: Byte)
    requires !IsReserved(b)
    ensures b == if HasTop(b) then WithTop(OpOf(b)) else OpOf(b)
    ensures OpOf(b) <= 0x0f
  {
  }

  lemma SecondByte(code: nat)
    requires code < 128
    ensures CodeOf(WithTop(code)) == code && HasTop(WithTop(code))
    ensures CodeOf(code) == code && !HasTop(code)
  {
  }

  lemma SecondByteBack(b: Byte)
    ensures CodeOf(b) < 128
    ensures HasTop(b) ==> b == WithTop(CodeOf(b))
  {
  }

  lemma TakeFrom(a: seq<Byte>, rest: seq<Byte>)
    ensures Take(a + rest, |a|) == (rest, Ok(a))
  {
  }

  lemma TakeBack(inbox: seq<Byte>, n: nat)
    requires Take(inbox, n).1.Ok?
    ensures var (rest, a) := Take(inbox, n);
      |a.value| == n && inbox == a.value + rest
  {
  }

  /** A length is read back from what is written of it. */
  lemma LengthIsRead(n: nat, rest: seq<Byte>)
    requires n < LENGTH_LIMIT
    ensures ReadLength(LengthCode(n), LengthBytes(n) + rest) == (rest, Ok(n))
  {
    SecondByte(LengthCode(n));
    Powers();
    if n <= MAX_CONTROL_PAYLOAD {
      assert LengthBytes(n) + rest == rest;
    } else {
      ValueOfDigits(n, if n <= 0xffff then 2 else 8);
      TakeFrom(LengthBytes(n), rest);
    }
  }

  /** No other bytes are read as that length. */
  lemma OnlyLengthsAreRead(code: Byte, inbox: seq<Byte>)
    requires code < 128
    requires ReadLength(code, inbox).1.Ok?
    ensures var (rest, n) := ReadLength(code, inbox);
      && n.value < LENGTH_LIMIT
      && code == LengthCode(n.value) && inbox == LengthBytes(n.value) + rest
  {
    Powers();
    var k := if code == 126 then 2 else if code == 127 then 8 else 0;
    if k > 0 {
      TakeBack(inbox, k);
      DigitsOfValue(Take(inbox, k).1.value);
    }
  }

  /** Every legal head is read for what it says. */
  lemma HeadIsRead(h: Header, rest: seq<Byte>)
    requires LegalHead(h)
    ensures ReadHeader(ClientHead(h) + rest) == (rest, Ok(h))
  {
    hide ReadLength, LengthBytes, LengthCode, FirstOf, WithTop, HasTop, IsReserved, OpOf, CodeOf;
    var inbox := ClientHead(h) + rest;
    FirstByte(h);
    SecondByte(LengthCode(h.length));
    assert inbox[2..] == LengthBytes(h.length) + (h.mask + rest);
    LengthIsRead(h.length, h.mask + rest);
    TakeFrom(h.mask, rest);
  }

  /** Whatever bytes are read as a head are the one encoding of a legal head. */
  lemma OnlyHeadsAreRead(inbox: seq<Byte>)
    requires ReadHeader(inbox).1.Ok?
    ensures var (rest, h) := ReadHeader(inbox);
      LegalHead(h.value) && inbox == ClientHead(h.value) + rest
  {
    hide ReadLength, LengthBytes, LengthCode, WithTop, HasTop, IsReserved, OpOf, CodeOf;
    assert |inbox| >= 2 && inbox[..2] == [inbox[0], inbox[1]];
    var first, second := inbox[0], inbox[1];
    var (rest, h) := ReadOn(first, second, inbox[2..]);
    FirstByteBack(first);
    SecondByteBack(second);
    OnlyLengthsAreRead(CodeOf(second), inbox[2..]);
    TakeBack(ReadLength(CodeOf(second), inbox[2..]).0, 4);
    assert [first, second] == [FirstOf(h.value), SecondOf(h.value)];
    assert inbox == [first, second] + inbox[2..];
  }

  /** The head `write` emits, as a client would send it: masked, with its four bytes. */
  function AsAClient(head: seq<Byte>, mask: Mask): seq<Byte>
    requires |head| >= 2
  {
    head[1 := WithTop(head[1])] + mask
  }

  /**
   Whatever length is written, its field is read back as that length, and of all
   the bytes that could say it no others are read as it. A control frame of more
   than 125 bytes, which `write` does not refuse, is refused; so is a frame with no mask.
   */
  lemma WriteEmitsTheLengthThatIsRead(op: Byte, n: nat, mask: Mask, rest: seq<Byte>)
    requires op <= 0x0f && n < LENGTH_LIMIT
    ensures ReadHeader(AsAClient(Head(op, n), mask) + rest).1 ==
            (if IsControl(op) && n > MAX_CONTROL_PAYLOAD then Err(LongControl)
             else Ok(Header(true, op, n, mask)))
    ensures ReadHeader(Head(op, n) + rest).1 ==
            Err(if IsControl(op) && n > MAX_CONTROL_PAYLOAD then LongControl else Unmasked)
    ensures forall other :: ReadHeader(other).1 == Ok(Header(true, op, n, mask)) ==>
              other == AsAClient(Head(op, n), mask) + ReadHeader(other).0
  {
    hide ReadLength, LengthBytes, LengthCode, WithTop, HasTop, IsReserved, OpOf, CodeOf;
    var h := Header(true, op, n, mask);
    assert FirstOf(h) == WithTop(op);
    assert AsAClient(Head(op, n), mask) == ClientHead(h);
    var inbox := ClientHead(h) + rest;
    FirstByte(h);
    SecondByte(LengthCode(n));
    assert inbox[2..] == LengthBytes(n) + (mask + rest);
    LengthIsRead(n, mask + rest);
    TakeFrom(mask, rest);
    var bare := Head(op, n) + rest;
    assert bare[2..] == LengthBytes(n) + rest;
    LengthIsRead(n, rest);
    forall other | ReadHeader(other).1 == Ok(h) ensures other == ClientHead(h) + ReadHeader(other).0 {
      OnlyHeadsAreRead(other);
    }
  }
}
