/**
 The bytes of a message, and what ends a walk over any (internal/esphome/proto.go), by
 the numbers of the Protocol Buffers encoding specification.
 */
module ProtobufBytes {
  import opened ProtobufModel
  import opened Wrappers

  import GoInt

  // ---------- varints and fixed fields ----------

  function Power128(k: nat): nat {
    if k == 0 then 1 else 128 * Power128(k - 1)
  }

  lemma DividedAgain(v: nat, unit: nat, k: nat)
    requires unit > 0 && k > 0
    ensures v / unit / k == v / (unit * k)
  {
    var x := v / unit;
    var q, r := x / k, x % k;
    assert unit * x == unit * k * q + unit * r by {
      assert x == k * q + r;
    }
    assert unit * r + unit <= unit * k by {
      GoInt.MulMono(unit, r + 1, k);
    }
    GoInt.DivIsUnique(v, unit * k, q);
  }

  /** Byte `i` of a varint has seven bits of the number, and its top bit as long as more follow. */
  lemma {:induction false} VarintBytes(v: nat, i: nat)
    requires i < |Varint(v)|
    ensures Power128(i) > 0
    ensures Varint(v)[i] % 128 == v / Power128(i) % 128
    ensures Varint(v)[i] >= 128 <==> i < |Varint(v)| - 1
    ensures i == |Varint(v)| - 1 && i > 0 ==> Varint(v)[i] > 0
    decreases v
  {
    if i > 0 {
      VarintBytes(v / 128, i - 1);
      DividedAgain(v, 128, Power128(i - 1));
    }
  }

  /** Byte `i` of a fixed field is bits 8i to 8i + 7. */
  lemma {:induction false} FixedBytes(v: nat, size: nat, i: nat)
    requires i < size
    ensures LittleEndian(v, size)[i] == v / Power256(i) % 256
    decreases size
  {
    if i > 0 {
      FixedBytes(v / 256, size - 1, i - 1);
      DividedAgain(v, 256, Power256(i - 1));
    }
  }

  /** A varint ends at its first byte without a top bit. */
  predicate EndsAt(b: seq<Byte>, n: nat) {
    0 < n <= |b| && b[n - 1] < 128 && forall i | 0 <= i < n - 1 :: b[i] >= 128
  }

  /** Its value has seven bits of each byte. */
  predicate SevenBitsEach(v: nat, b: seq<Byte>, n: nat)
    requires n <= |b|
  {
    if n == 0 then v == 0 else v % 128 == b[0] % 128 && SevenBitsEach(v / 128, b[1..], n - 1)
  }

  /** What ends a varint whose first byte is byte `i` of one of ten bytes at most. */
  predicate FitsTen(b: seq<Byte>, i: nat, n: nat)
    requires 0 < n <= |b|
  {
    i + n < 10 || (i + n == 10 && b[n - 1] <= 1)
  }

  predicate VarintRead(b: seq<Byte>, i: nat, v: nat, n: nat) {
    EndsAt(b, n) && FitsTen(b, i, n) && SevenBitsEach(v, b, n)
  }

  lemma {:induction false} UvarintFrom(b: seq<Byte>, i: nat)
    ensures var r := Uvarint(b, i);
      if r.Some? then VarintRead(b, i, r.value.0, r.value.1) else forall n: nat | EndsAt(b, n) :: !FitsTen(b, i, n)
    decreases |b|
  {
    if b != [] && i < 10 {
      UvarintFrom(b[1..], i + 1);
      var r := Uvarint(b[1..], i + 1);
      if b[0] >= 128 {
        if r.Some? {
          LongerVarint(b, r.value.0, r.value.1);
        } else {
          forall n: nat | EndsAt(b, n) ensures !FitsTen(b, i, n) {
            assert n > 1;
            assert EndsAt(b[1..], n - 1);
          }
        }
      } else {
        forall n | EndsAt(b, n) ensures n == 1 {
        }
      }
    }
  }

  lemma LongerVarint(b: seq<Byte>, high: nat, n: nat)
    requires b != [] && b[0] >= 128 && EndsAt(b[1..], n) && SevenBitsEach(high, b[1..], n)
    ensures EndsAt(b, n + 1) && SevenBitsEach(b[0] - 0x80 + 0x80 * high, b, n + 1)
  {
    assert b[n] == b[1..][n - 1];
    forall k | 0 <= k < n ensures b[k] >= 128 {
      assert k > 0 ==> b[k] == b[1..][k - 1];
    }
  }

  /**
   Bytes are read as a varint up to the first without a top bit, seven bits of each, if
   that is one of the first ten, and at most 1 if it is the tenth; other bytes are not
   read as any.
   */
  lemma WhatIsReadAsAVarint(b: seq<Byte>)
    ensures var r := Uvarint(b, 0);
      if r.Some? then
        var (v, n) := r.value;
        EndsAt(b, n) && (n < 10 || (n == 10 && b[9] <= 1)) && SevenBitsEach(v, b, n)
      else forall n | EndsAt(b, n) :: n > 10 || (n == 10 && b[9] > 1)
  {
    UvarintFrom(b, 0);
  }

  // ---------- one field ----------

  /** A fixed field's number, the low byte first. */
  predicate IsNumber(v: nat, b: seq<Byte>) {
    if b == [] then v == 0 else v % 256 == b[0] && IsNumber(v / 256, b[1..])
  }

  lemma {:induction false} NumberOf(b: seq<Byte>)
    ensures IsNumber(FromLittleEndian(b), b)
    decreases |b|
  {
    if b != [] {
      NumberOf(b[1..]);
    }
  }

  /** Eight, or four, bytes are a number; a varint and as many bytes as it says are data. */
  predicate FixedRule(field: nat, wire: nat, size: nat, msg: seq<Byte>, s: Step, why: Error) {
    if |msg| < size then s == Stop(why)
    else
      && s.Visit? && s.rest == msg[size..] && s.entry == Entry(field, wire, s.entry.num, [])
      && IsNumber(s.entry.num, msg[..size])
  }

  /** A turn takes a tag, which is a field number and a wire type, and what that type says. */
  predicate TurnRule(msg: seq<Byte>, s: Step) {
    match Uvarint(msg, 0)
    case None => s == Stop(BadTag)
    case Some((key, n)) =>
      n <= |msg| &&
      var field, wire, rest := key / 8, key % 8, msg[n..];
      if key / 8 >= 0x2000_0000 then s == Stop(FieldOutOfRange)
      else if wire == 1 then FixedRule(field, wire, 8, rest, s, ShortFixed64(field))
      else if wire == 5 then FixedRule(field, wire, 4, rest, s, ShortFixed32(field))
      else if wire == 0 || wire == 2 then VarintRule(field, wire, rest, s)
      else s == Stop(UnsupportedWire(wire, field))
  }

  predicate VarintRule(field: nat, wire: nat, msg: seq<Byte>, s: Step) {
    match Uvarint(msg, 0)
    case None => s == Stop(if wire == 0 then BadVarint(field) else ShortBytes(field))
    case Some((v, n)) =>
      n <= |msg| &&
      if wire == 0 then s == Visit(Entry(field, 0, v, []), msg[n..])
      else if n + v > |msg| then s == Stop(ShortBytes(field))
      else s == Visit(Entry(field, 2, 0, msg[n..n + v]), msg[n + v..])
  }

  lemma WhatATurnDoes(msg: seq<Byte>)
    ensures TurnRule(msg, Next(msg))
  {
    hide IsNumber, FromLittleEndian, Uvarint;
    UvarintSize(msg, 0);
    if Uvarint(msg, 0).Some? {
      var (key, n) := Uvarint(msg, 0).value;
      var rest := msg[n..];
      UvarintSize(rest, 0);
      if |rest| >= 4 {
        NumberOf(rest[..4]);
      }
      if |rest| >= 8 {
        NumberOf(rest[..8]);
      }
    }
  }

  // ---------- the examples of the specification ----------

  const TESTING: seq<Byte> := [0x74, 0x65, 0x73, 0x74, 0x69, 0x6e, 0x67]

  lemma Varint150()
    ensures Varint(150) == [0x96, 0x01] && Varint(1) == [1] && Varint(7) == [7] && Varint(3) == [3]
    ensures Varint(300) == [0xac, 0x02]
  {
    assert Varint(150) == [150 % 0x80 + 0x80] + Varint(1);
    assert Varint(300) == [300 % 0x80 + 0x80] + Varint(2);
  }

  lemma TagsOfTheExamples()
    ensures Varint(Tag(1, 0)) == [0x08] && Varint(Tag(2, 2)) == [0x12] && Varint(Tag(3, 2)) == [0x1a]
    ensures Varint(Tag(1, 5)) == [0x0d]
  {
    assert Tag(1, 0) == 0x08 && Tag(2, 2) == 0x12 && Tag(3, 2) == 0x1a && Tag(1, 5) == 0x0d;
    hide Tag;
  }

  /** A number, a string, a message inside a message, a flag, and a number of four bytes. */
  lemma ExamplesOfTheSpecification()
    ensures Appended(U32(1, 150)) == [0x08, 0x96, 0x01]
    ensures Appended(Str(2, TESTING)) == [0x12, 0x07] + TESTING
    ensures Appended(Sub(3, [0x08, 0x96, 0x01])) == [0x1a, 0x03, 0x08, 0x96, 0x01]
    ensures Appended(Boolean(1, true)) == [0x08, 0x01]
    ensures Appended(Fixed32(1, 0x1020304)) == [0x0d, 0x04, 0x03, 0x02, 0x01]
  {
    Varint150();
    TagsOfTheExamples();
    FourBytes(0x1020304, 4, 3, 2, 1);
    hide Varint, LittleEndian, Tag;
    assert [0x12] + ([0x07] + TESTING) == [0x12, 0x07] + TESTING;
    assert [0x1a] + ([0x03] + [0x08, 0x96, 0x01]) == [0x1a, 0x03, 0x08, 0x96, 0x01];
  }

  lemma FourBytes(v: nat, a: Byte, b: Byte, c: Byte, d: Byte)
    requires v == a + 256 * (b + 256 * (c + 256 * d))
    ensures LittleEndian(v, 4) == [a, b, c, d]
  {
    var x, y: nat := b + 256 * (c + 256 * d), c + 256 * d;
    assert v % 256 == a && v / 256 == x && x % 256 == b && x / 256 == y && y % 256 == c && y / 256 == d;
    assert LittleEndian(d, 1) == [d] + LittleEndian(0, 0);
    assert LittleEndian(y, 2) == [c] + LittleEndian(d, 1);
    assert LittleEndian(x, 3) == [b] + LittleEndian(y, 2);
  }
}
