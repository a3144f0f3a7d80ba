/**
 What masking does to each bit (section 5.3 of RFC 6455; internal/sendspin/ws.go:252-270),
 and the example frames of section 5.7, byte for byte.
 */
module WebSocketMasks {
  import opened WebSocketModel
  import opened WebSocketProofs
  import opened Wrappers

  /** Whether bit `k` of a number is set, the lowest being bit 0. */
  predicate Bit(x: nat, k: nat) {
    if k == 0 then x % 2 == 1 else Bit(x / 2, k - 1)
  }

  lemma LowestAndRest(a: nat, b: nat, high: nat)
    ensures var x := (a + b) % 2 + 2 * high; x / 2 == high && (x % 2 == 1 <==> (a % 2 == 1) != (b % 2 == 1))
  {
  }

  lemma {:induction false} XorBits(a: nat, b: nat, bits: nat, k: nat)
    requires k < bits
    ensures Bit(Xor(a, b, bits), k) <==> Bit(a, k) != Bit(b, k)
  {
    LowestAndRest(a, b, Xor(a / 2, b / 2, bits - 1));
    if k > 0 {
      XorBits(a / 2, b / 2, bits - 1, k - 1);
    }
  }

  /**
   Byte `i` of what is masked differs from that of the data in just the bits that are
   set in byte `i` mod 4 of the mask; and there are as many bytes.
   */
  lemma AMaskFlipsItsBits(data: seq<Byte>, mask: Mask, i: nat, k: nat)
    requires i < |data| && k < 8
    ensures |Masked(data, mask)| == |data|
    ensures Bit(Masked(data, mask)[i], k) != Bit(data[i], k) <==> Bit(mask[i % 4], k)
  {
    XorBits(data[i], mask[i % 4], 8, k);
  }

  // ---------- the examples of the RFC ----------

  const HELLO: seq<Byte> := [0x48, 0x65, 0x6c, 0x6c, 0x6f]
  const MASK: Mask := [0x37, 0xfa, 0x21, 0x3d]
  const MASKED_HELLO: seq<Byte> := [0x7f, 0x9f, 0x4d, 0x51, 0x58]

  lemma OneBit(a: nat, b: nat, bits: nat)
    ensures Xor(a, b, bits + 1) == (a + b) % 2 + 2 * Xor(a / 2, b / 2, bits)
  {
  }

  lemma FourBits(a: nat, b: nat, bits: nat)
    ensures Xor(a, b, bits + 4) == (a + b) % 2 + 2 * ((a / 2 + b / 2) % 2) + 4 * ((a / 4 + b / 4) % 2)
                                   + 8 * ((a / 8 + b / 8) % 2) + 16 * Xor(a / 16, b / 16, bits)
  {
    hide Xor;
    assert a / 2 / 2 == a / 4 && a / 4 / 2 == a / 8 && a / 8 / 2 == a / 16;
    assert b / 2 / 2 == b / 4 && b / 4 / 2 == b / 8 && b / 8 / 2 == b / 16;
    OneBit(a, b, bits + 3);
    OneBit(a / 2, b / 2, bits + 2);
    OneBit(a / 4, b / 4, bits + 1);
    OneBit(a / 8, b / 8, bits);
  }

  lemma EightBits(a: Byte, b: Byte, ha: nat, hb: nat, x: nat, y: nat)
    requires ha == a / 16 && hb == b / 16
    requires x == (a + b) % 2 + 2 * ((a / 2 + b / 2) % 2) + 4 * ((a / 4 + b / 4) % 2) + 8 * ((a / 8 + b / 8) % 2)
    requires y == (ha + hb) % 2 + 2 * ((ha / 2 + hb / 2) % 2) + 4 * ((ha / 4 + hb / 4) % 2)
                  + 8 * ((ha / 8 + hb / 8) % 2)
    ensures XorByte(a, b) == x + 16 * y
  {
    FourBits(a, b, 4);
    FourBits(ha, hb, 0);
    NoBits(ha / 16, hb / 16);
    hide Xor;
  }

  lemma NoBits(a: nat, b: nat)
    ensures Xor(a, b, 0) == 0
  {
  }

  lemma HelloByByte()
    ensures XorByte(0x48, 0x37) == 0x7f && XorByte(0x65, 0xfa) == 0x9f && XorByte(0x6c, 0x21) == 0x4d
    ensures XorByte(0x6c, 0x3d) == 0x51 && XorByte(0x6f, 0x37) == 0x58
  {
    hide XorByte;
    EightBits(0x48, 0x37, 4, 3, 0xf, 0x7);
    EightBits(0x65, 0xfa, 6, 15, 0xf, 0x9);
    EightBits(0x6c, 0x21, 6, 2, 0xd, 0x4);
    EightBits(0x6c, 0x3d, 6, 3, 0x1, 0x5);
    EightBits(0x6f, 0x37, 6, 3, 0x8, 0x5);
  }

  lemma HelloIsMasked()
    ensures Masked(HELLO, MASK) == MASKED_HELLO
  {
    hide XorByte;
    HelloByByte();
    var m := Masked(HELLO, MASK);
    forall i | 0 <= i < 5 ensures m[i] == MASKED_HELLO[i] {
      assert m[i] == XorByte(HELLO[i], MASK[i % 4]);
      assert i == 0 || i == 1 || i == 2 || i == 3 || i == 4;
    }
  }

  function Fresh(inbox: seq<Byte>): Conn {
    Conn(inbox, 0xffff, [], 1)
  }

  /** A frame that says Hello, as the client of the examples sends it. */
  lemma AHelloIsTaken(c: Conn, b: Building, first: Byte, fin: bool, op: Byte)
    requires op <= 0x0f && first == (if fin then 0x80 else 0) + op && (op >= 8 ==> fin) && c.limit >= 5
    requires c.inbox == [first, 0x85] + MASK + MASKED_HELLO
    ensures TakeFrame(c, b) == Handle(c.(inbox := []), b, fin, op, HELLO)
  {
    var f := Frame(fin, op, MASK, HELLO);
    HelloIsMasked();
    assert Encode(f) == [first, 0x85] + MASK + MASKED_HELLO by {
      assert LengthBytes(5) == [];
      assert [first, 0x85] + [] + MASK == [first, 0x85] + MASK;
    }
    hide Encode, Masked, Handle;
    assert c.inbox == Encode(f) + [];
    FrameIsTaken(c, b, f, []);
  }

  lemma HelloIsRead(first: Byte, op: Byte)
    requires (op == 1 || op == 2) && first == 0x80 + op
    ensures Read(Fresh([first, 0x85] + MASK + MASKED_HELLO)).1 == Ok(Message(op == 2, HELLO))
  {
    AHelloIsTaken(Fresh([first, 0x85] + MASK + MASKED_HELLO), NOTHING, first, true, op);
    hide TakeFrame;
  }

  lemma HelloIsAnswered()
    ensures TakeFrame(Fresh([0x89, 0x85] + MASK + MASKED_HELLO), NOTHING) ==
            (Conn([], 0xffff, [0x8a, 0x05] + HELLO, 0), Again(NOTHING))
  {
    AHelloIsTaken(Fresh([0x89, 0x85] + MASK + MASKED_HELLO), NOTHING, 0x89, true, 0x9);
    hide TakeFrame;
    assert [] + ([0x8a, 0x05] + []) + HELLO == [0x8a, 0x05] + HELLO;
  }

  /** A single-frame masked text message; the same in binary; a masked ping, and the pong it is owed. */
  lemma ExamplesOfTheRfc()
    ensures Read(Fresh([0x81, 0x85] + MASK + MASKED_HELLO)).1 == Ok(Message(false, HELLO))
    ensures Read(Fresh([0x82, 0x85] + MASK + MASKED_HELLO)).1 == Ok(Message(true, HELLO))
    ensures TakeFrame(Fresh([0x89, 0x85] + MASK + MASKED_HELLO), NOTHING) ==
            (Conn([], 0xffff, [0x8a, 0x05] + HELLO, 0), Again(NOTHING))
    ensures TakeFrame(Fresh([0x8a, 0x85] + MASK + MASKED_HELLO), NOTHING).1 == Again(NOTHING)
  {
    HelloIsRead(0x81, 0x1);
    HelloIsRead(0x82, 0x2);
    HelloIsAnswered();
    AHelloIsTaken(Fresh([0x8a, 0x85] + MASK + MASKED_HELLO), NOTHING, 0x8a, true, 0xa);
    hide TakeFrame, Read;
  }

  /** A fragmented message: a first frame that is not final, and a continuation that is. */
  lemma AFragmentedMessage(b: Building)
    ensures TakeFrame(Fresh([0x01, 0x85] + MASK + MASKED_HELLO), NOTHING).1 == Again(Building(1, true, HELLO))
    ensures b.fragmented && |b.msg| <= 0xfff0 ==>
              TakeFrame(Fresh([0x80, 0x85] + MASK + MASKED_HELLO), b).1 ==
              Finished(Ok(Message(b.kind == 2, b.msg + HELLO)))
  {
    AHelloIsTaken(Fresh([0x01, 0x85] + MASK + MASKED_HELLO), NOTHING, 0x01, false, 0x1);
    AHelloIsTaken(Fresh([0x80, 0x85] + MASK + MASKED_HELLO), b, 0x80, true, 0x0);
    hide TakeFrame;
  }

  /** 256 bytes and 64 KiB of data are told in two bytes and in eight. */
  lemma LengthsOfTheExamples()
    ensures Head(OP_BINARY, 256) == [0x82, 0x7e, 0x01, 0x00]
    ensures Head(OP_BINARY, 65536) == [0x82, 0x7f, 0, 0, 0, 0, 0, 0x01, 0, 0]
    ensures Head(OP_BINARY, 125) == [0x82, 0x7d] && Head(OP_BINARY, 126) == [0x82, 0x7e, 0, 126]
    ensures Head(OP_BINARY, 65535) == [0x82, 0x7e, 0xff, 0xff]
  {
    TwoDigits(256);
    TwoDigits(126);
    TwoDigits(65535);
    assert Digits(0, 1) == [0] && Digits(0, 2) == [0, 0] && Digits(0, 3) == [0, 0, 0];
    assert Digits(0, 4) == [0, 0, 0, 0] && Digits(0, 5) == [0, 0, 0, 0, 0];
    assert Digits(1, 6) == [0, 0, 0, 0, 0, 1] && Digits(256, 7) == [0, 0, 0, 0, 0, 1, 0];
  }

  lemma TwoDigits(n: nat)
    requires n < 65536
    ensures Digits(n, 2) == [n / 256, n % 256]
  {
    assert Digits(n / 256 / 256, 0) == [] && Digits(n / 256, 1) == [n / 256];
  }
}
