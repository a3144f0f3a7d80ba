/**
 A walk over what was written visits what was written, and a walk over anything
 stays inside it (internal/esphome/proto.go:17-57, 66-106).
 */
module ProtobufProofs {
  import opened ProtobufModel
  import opened Wrappers

  /** One more than the largest value the bytes from `i` on can hold. */
  function Limit(i: nat): nat
    requires i <= 9
    decreases 9 - i
  {
    if i == 9 then 2 else 0x80 * Limit(i + 1)
  }

  lemma LimitIsUint64()
    ensures Limit(0) == UINT64
  {
    assert Limit(7) == 0x8000 && Limit(5) == 0x2000_0000;
    assert Limit(3) == 0x800_0000_0000 && Limit(1) == 0x200_0000_0000_0000;
  }

  /** A varint is read back, whatever follows it. */
  lemma {:induction false} VarintIsReadAt(v: nat, rest: seq<Byte>, i: nat)
    requires i <= 9 && v < Limit(i)
    ensures Uvarint(Varint(v) + rest, i) == Some((v, |Varint(v)|))
  {
    if v >= 0x80 {
      VarintIsReadAt(v / 0x80, rest, i + 1);
      assert (Varint(v) + rest)[1..] == Varint(v / 0x80) + rest;
    }
  }

  lemma VarintIsRead(v: nat, rest: seq<Byte>)
    requires v < UINT64
    ensures Uvarint(Varint(v) + rest, 0) == Some((v, |Varint(v)|))
    ensures (Varint(v) + rest)[|Varint(v)|..] == rest
  {
    LimitIsUint64();
    VarintIsReadAt(v, rest, 0);
  }

  /** Nothing that is read goes past 64 bits or ten bytes. */
  lemma {:induction false} UvarintFitsAt(b: seq<Byte>, i: nat)
    requires i <= 9
    ensures Uvarint(b, i).Some? ==> Uvarint(b, i).value.0 < Limit(i) && Uvarint(b, i).value.1 <= 10 - i
    decreases |b|
  {
    if b != [] && b[0] >= 0x80 && i < 9 {
      UvarintFitsAt(b[1..], i + 1);
    } else {
      LimitHoldsAByte(i);
    }
  }

  lemma {:induction false} LimitHoldsAByte(i: nat)
    requires i <= 9
    ensures Limit(i) >= if i == 9 then 2 else 0x80
    decreases 9 - i
  {
    if i < 9 {
      LimitHoldsAByte(i + 1);
    }
  }

  lemma UvarintFits(b: seq<Byte>)
    ensures Uvarint(b, 0).Some? ==> Uvarint(b, 0).value.0 < UINT64 && Uvarint(b, 0).value.1 <= 10
  {
    LimitIsUint64();
    UvarintFitsAt(b, 0);
  }

  lemma {:induction false} LittleEndianIsRead(v: nat, size: nat)
    requires v < Power256(size)
    ensures FromLittleEndian(LittleEndian(v, size)) == v
  {
    if size > 0 {
      LittleEndianIsRead(v / 256, size - 1);
    }
  }

  lemma Powers()
    ensures Power256(4) == UINT32 && Power256(8) == UINT64
  {
    assert Power256(2) == 65536 && Power256(6) == 65536 * Power256(4);
  }

  /** The field of a tag, as the walk sees it. */
  lemma TagIsRead(field: int, wire: nat)
    requires wire < 8
    ensures Tag(field, wire) < UINT64
    ensures Tag(field, wire) % 8 == wire
    ensures Tag(field, wire) / 8 == field % (UINT64 / 8)
  {
    var m := UINT64 / 8;
    var q, r := field / m, field % m;
    assert field * 8 == UINT64 * q + 8 * r;
    assert field * 8 % UINT64 == 8 * r;
  }

  /** What the walk is expected to make of a call. */
  function EntryOf(c: Call): Entry
    requires c.field >= 0
  {
    match c
    case U32(f, v) => Entry(f, WIRE_VARINT, v, [])
    case Boolean(f, on) => Entry(f, WIRE_VARINT, if on then 1 else 0, [])
    case Str(f, data) => Entry(f, WIRE_BYTES, 0, data)
    case Sub(f, data) => Entry(f, WIRE_BYTES, 0, data)
    case Fixed32(f, v) => Entry(f, WIRE_FIXED32, v, [])
  }

  lemma BodyIsRead(c: Call, rest: seq<Byte>)
    requires Typed(c) && c.field >= 0
    ensures Body(c.field, WireOf(c), BodyOf(c) + rest) == Visit(EntryOf(c), rest)
  {
    match c
    case U32(_, v) => VarintIsRead(v, rest);
    case Boolean(_, on) => VarintIsRead(if on then 1 else 0, rest);
    case Str(_, data) => BytesAreRead(c.field, data, rest);
    case Sub(_, data) => BytesAreRead(c.field, data, rest);
    case Fixed32(_, v) =>
      Powers();
      LittleEndianIsRead(v, 4);
      var b := LittleEndian(v, 4);
      assert (b + rest)[..4] == b && (b + rest)[4..] == rest;
  }

  lemma BytesAreRead(field: nat, data: seq<Byte>, rest: seq<Byte>)
    requires |data| < GoInt.INT64_LIMIT
    ensures Body(field, WIRE_BYTES, Varint(|data|) + data + rest) == Visit(Entry(field, WIRE_BYTES, 0, data), rest)
  {
    hide Varint, Uvarint;
    var head := Varint(|data|);
    var msg := head + data + rest;
    assert msg == head + (data + rest);
    VarintIsRead(|data|, data + rest);
    assert msg[|head|..|head| + |data|] == data && msg[|head| + |data|..] == rest;
  }

  /**
   One call is read back as itself exactly when its field number is one the
   encoding has; any other number is refused, or comes back as another.
   */
  lemma ACallIsReadWhenItsFieldIsLegal(c: Call, rest: seq<Byte>)
    requires Typed(c)
    ensures 0 <= c.field <= MAX_FIELD ==> Next(Appended(c) + rest) == Visit(EntryOf(c), rest)
    ensures !(0 <= c.field <= MAX_FIELD) ==>
              var s := Next(Appended(c) + rest);
              s == Stop(FieldOutOfRange) || (s.Visit? && s.entry.field as int != c.field)
    ensures Next(Appended(c) + rest) == Stop(FieldOutOfRange) <==> c.field % (UINT64 / 8) > MAX_FIELD
  {
    hide Varint, Uvarint, Body;
    var wire := WireOf(c);
    TagIsRead(c.field, wire);
    var head := Varint(Tag(c.field, wire));
    assert Appended(c) + rest == head + (BodyOf(c) + rest);
    VarintIsRead(Tag(c.field, wire), BodyOf(c) + rest);
    BodyKeepsItsField(Tag(c.field, wire) / 8, wire, BodyOf(c) + rest);
    if 0 <= c.field <= MAX_FIELD {
      assert c.field % (UINT64 / 8) == c.field;
      BodyIsRead(c, rest);
    } else if c.field % (UINT64 / 8) <= MAX_FIELD {
      BodyNeedsNoField(c, Tag(c.field, wire) / 8, rest);
    }
  }

  lemma BodyKeepsItsField(field: nat, wire: nat, msg: seq<Byte>)
    ensures var s := Body(field, wire, msg);
      (s.Visit? ==> s.entry.field == field && s.entry.wire == wire) && s != Stop(FieldOutOfRange)
  {
  }

  /** A body is read the same under any field number. */
  lemma BodyNeedsNoField(c: Call, field: nat, rest: seq<Byte>)
    requires Typed(c)
    ensures Body(field, WireOf(c), BodyOf(c) + rest).Visit?
  {
    match c
    case U32(_, v) => BodyIsRead(U32(0, v), rest);
    case Boolean(_, on) => BodyIsRead(Boolean(0, on), rest);
    case Str(_, data) => BytesAreRead(field, data, rest);
    case Sub(_, data) => BytesAreRead(field, data, rest);
    case Fixed32(_, v) => BodyIsRead(Fixed32(0, v), rest);
  }

  predicate Writable(calls: seq<Call>) {
    forall i | 0 <= i < |calls| :: Typed(calls[i]) && 0 <= calls[i].field <= MAX_FIELD
  }

  function EntriesOf(calls: seq<Call>): seq<Entry>
    requires Writable(calls)
  {
    if calls == [] then [] else [EntryOf(calls[0])] + EntriesOf(calls[1..])
  }

  /** A walk over what any calls wrote visits exactly their fields, in order. */
  lemma {:induction false} WalkUndoesWriting(calls: seq<Call>)
    requires Writable(calls)
    ensures Walk(Written(calls)) == (EntriesOf(calls), None)
  {
    hide Next, Appended;
    if calls != [] {
      WalkUndoesWriting(calls[1..]);
      ACallIsReadWhenItsFieldIsLegal(calls[0], Written(calls[1..]));
      AppendedIsNotEmpty(calls[0]);
    }
  }

  lemma AppendedIsNotEmpty(c: Call)
    ensures Appended(c) != []
  {
  }

  // ---------- walking any bytes ----------

  lemma {:induction false} UvarintIsLocal(a: seq<Byte>, b: seq<Byte>, i: nat)
    ensures Uvarint(a, i).Some? ==> Uvarint(a + b, i) == Uvarint(a, i)
    decreases |a|
  {
    if a != [] {
      assert (a + b)[1..] == a[1..] + b;
      UvarintIsLocal(a[1..], b, i + 1);
    }
  }

  /** A field that is read is read the same whatever follows it. */
  lemma BodyIsLocal(field: nat, wire: nat, a: seq<Byte>, b: seq<Byte>)
    ensures var s := Body(field, wire, a);
      s.Visit? ==> Body(field, wire, a + b) == Visit(s.entry, s.rest + b)
  {
    hide Uvarint;
    UvarintIsLocal(a, b, 0);
    UvarintSize(a, 0);
    var s := Body(field, wire, a);
    if s.Visit? {
      var size := |a| - |s.rest|;
      assert s.rest == a[size..] && (a + b)[size..] == a[size..] + b;
      if wire == WIRE_BYTES {
        var (l, n) := Uvarint(a, 0).value;
        assert (a + b)[n..n + l] == a[n..n + l];
      } else if wire == WIRE_FIXED32 || wire == WIRE_FIXED64 {
        assert (a + b)[..size] == a[..size];
      }
    }
  }

  lemma NextIsLocal(a: seq<Byte>, b: seq<Byte>)
    ensures Next(a).Visit? ==> Next(a + b) == Visit(Next(a).entry, Next(a).rest + b)
  {
    hide Uvarint, Body;
    UvarintIsLocal(a, b, 0);
    UvarintSize(a, 0);
    if Next(a).Visit? {
      var (key, n) := Uvarint(a, 0).value;
      assert (a + b)[n..] == a[n..] + b;
      BodyIsLocal(key / 8, key % 8, a[n..], b);
    }
  }

  /**
   Walking a message that goes on is walking its parts in turn: all of the first
   is visited, and then the second as if it stood alone.
   */
  lemma {:induction false} WalkingPartsInTurn(a: seq<Byte>, b: seq<Byte>)
    requires Walk(a).1 == None
    ensures Walk(a + b) == (Walk(a).0 + Walk(b).0, Walk(b).1)
    decreases |a|
  {
    hide Next;
    if a == [] {
      assert a + b == b && [] + Walk(b).0 == Walk(b).0;
    } else {
      var s := Next(a);
      NextIsLocal(a, b);
      WalkingPartsInTurn(s.rest, b);
      assert [s.entry] + (Walk(s.rest).0 + Walk(b).0) == Walk(a).0 + Walk(b).0;
    }
  }

  /** `data` lies in the message, with `left` bytes after it. */
  predicate LiesBefore(data: seq<Byte>, msg: seq<Byte>, left: nat) {
    left + |data| <= |msg| && msg[|msg| - left - |data|..|msg| - left] == data
  }

  lemma BodyIsInside(field: nat, wire: nat, msg: seq<Byte>)
    ensures var s := Body(field, wire, msg);
      s.Visit? ==>
        && |s.rest| + |s.entry.data| < |msg| && msg[|msg| - |s.rest|..] == s.rest
        && LiesBefore(s.entry.data, msg, |s.rest|)
        && s.entry.num < UINT64
  {
    UvarintSize(msg, 0);
    UvarintFits(msg);
    Powers();
    hide Uvarint, Power256, FromLittleEndian;
    if wire == WIRE_FIXED32 && |msg| >= 4 {
      LittleEndianFits(msg[..4]);
    } else if wire == WIRE_FIXED64 && |msg| >= 8 {
      LittleEndianFits(msg[..8]);
    }
  }

  lemma {:induction false} LittleEndianFits(b: seq<Byte>)
    ensures FromLittleEndian(b) < Power256(|b|)
  {
    if b != [] {
      LittleEndianFits(b[1..]);
    }
  }

  lemma NextIsInside(msg: seq<Byte>)
    ensures var s := Next(msg);
      s.Visit? ==>
        && |s.rest| + |s.entry.data| + 2 <= |msg| && msg[|msg| - |s.rest|..] == s.rest
        && LiesBefore(s.entry.data, msg, |s.rest|)
        && s.entry.num < UINT64 && s.entry.field <= MAX_FIELD
        && s.entry.wire in {WIRE_VARINT, WIRE_FIXED64, WIRE_BYTES, WIRE_FIXED32}
  {
    hide Uvarint, Body;
    UvarintSize(msg, 0);
    if Next(msg).Visit? {
      var (key, n) := Uvarint(msg, 0).value;
      BodyIsInside(key / 8, key % 8, msg[n..]);
      BodyKeepsItsField(key / 8, key % 8, msg[n..]);
      BodyIsOfAKnownWire(key / 8, key % 8, msg[n..]);
      var s := Next(msg);
      assert msg == msg[..n] + msg[n..];
      LiesBeforeInMore(s.entry.data, msg[..n], msg[n..], |s.rest|);
    }
  }

  lemma LiesBeforeInMore(data: seq<Byte>, head: seq<Byte>, msg: seq<Byte>, left: nat)
    requires LiesBefore(data, msg, left)
    ensures LiesBefore(data, head + msg, left)
  {
    var at := |msg| - left - |data|;
    assert (head + msg)[|head| + at..|head| + at + |data|] == msg[at..at + |data|];
  }

  lemma BodyIsOfAKnownWire(field: nat, wire: nat, msg: seq<Byte>)
    ensures Body(field, wire, msg).Visit? ==> wire in {WIRE_VARINT, WIRE_FIXED64, WIRE_BYTES, WIRE_FIXED32}
  {
  }

  /** How much of the message is left after each field visited. */
  function Lefts(msg: seq<Byte>): seq<nat>
    decreases |msg|
  {
    if msg == [] || Next(msg).Stop? then [] else [|Next(msg).rest|] + Lefts(Next(msg).rest)
  }

  /** Each field's data, and two bytes at least, fit between what was left before it and what is left after. */
  predicate InOrder(entries: seq<Entry>, lefts: seq<nat>, before: nat)
    requires |lefts| == |entries|
    decreases |entries|
  {
    entries == [] || (lefts[0] + |entries[0].data| + 2 <= before && InOrder(entries[1..], lefts[1..], lefts[0]))
  }

  /** Whatever the bytes, every field visited has its data inside the message, after that of the field before. */
  lemma {:induction false} WalkStaysInside(msg: seq<Byte>)
    ensures var (entries, lefts) := (Walk(msg).0, Lefts(msg));
      && |lefts| == |entries|
      && (forall i | 0 <= i < |entries| :: LiesBefore(entries[i].data, msg, lefts[i]))
      && InOrder(entries, lefts, |msg|)
    decreases |msg|
  {
    hide Next, LiesBefore;
    if msg != [] && Next(msg).Visit? {
      var s := Next(msg);
      NextIsInside(msg);
      WalkStaysInside(s.rest);
      var head, entries := msg[..|msg| - |s.rest|], Walk(s.rest).0;
      assert msg == head + s.rest;
      assert Walk(msg).0[1..] == entries && Lefts(msg)[1..] == Lefts(s.rest);
      forall i | 0 <= i < |entries| ensures LiesBefore(entries[i].data, msg, Lefts(s.rest)[i]) {
        LiesBeforeInMore(entries[i].data, head, s.rest, Lefts(s.rest)[i]);
      }
    }
  }

  // ---------- messages cut short ----------

  lemma {:induction false} CutVarintIsNotRead(v: nat, k: nat, i: nat)
    requires k < |Varint(v)|
    ensures Uvarint(Varint(v)[..k], i) == None
  {
    if k > 0 {
      CutVarintIsNotRead(v / 0x80, k - 1, i + 1);
      assert Varint(v)[..k][1..] == Varint(v / 0x80)[..k - 1];
    }
  }

  lemma WiresFit(c: Call)
    ensures WireOf(c) < 8
  {
  }

  lemma FieldsKeepTheirNumber(field: nat)
    requires field <= MAX_FIELD
    ensures field % (UINT64 / 8) == field
  {
  }

  /** A message cut inside a field is refused. */
  lemma CuttingAFieldIsNoticed(c: Call, k: nat)
    requires Typed(c) && 0 <= c.field <= MAX_FIELD && 0 < k < |Appended(c)|
    ensures Walk(Appended(c)[..k]).1.Some?
  {
    hide Varint, Uvarint, Body, BodyOf, Tag, WireOf;
    var wire := WireOf(c);
    WiresFit(c);
    TagIsRead(c.field, wire);
    var key := Tag(c.field, wire);
    var head := Varint(key);
    var cut := Appended(c)[..k];
    if k < |head| {
      assert cut == head[..k];
      CutVarintIsNotRead(key, k, 0);
    } else {
      var left := BodyOf(c)[..k - |head|];
      assert cut == head + left;
      VarintIsRead(key, left);
      FieldsKeepTheirNumber(c.field);
      CutBodyIsNotRead(c, k - |head|);
      assert Next(cut).Stop?;
    }
  }

  lemma CutBodyIsNotRead(c: Call, k: nat)
    requires Typed(c) && c.field >= 0 && k < |BodyOf(c)|
    ensures Body(c.field, WireOf(c), BodyOf(c)[..k]).Stop?
  {
    match c
    case U32(_, v) => CutVarintIsNotRead(v, k, 0);
    case Boolean(_, on) => CutVarintIsNotRead(if on then 1 else 0, k, 0);
    case Str(_, data) => CutBytesAreNotRead(c.field, data, k);
    case Sub(_, data) => CutBytesAreNotRead(c.field, data, k);
    case Fixed32(_, v) =>
  }

  lemma CutBytesAreNotRead(field: nat, data: seq<Byte>, k: nat)
    requires |data| < GoInt.INT64_LIMIT && k < |Varint(|data|)| + |data|
    ensures Body(field, WIRE_BYTES, (Varint(|data|) + data)[..k]).Stop?
  {
    hide Varint, Uvarint;
    var head := Varint(|data|);
    if k < |head| {
      assert (head + data)[..k] == head[..k];
      CutVarintIsNotRead(|data|, k, 0);
    } else {
      assert (head + data)[..k] == head + data[..k - |head|];
      VarintIsRead(|data|, data[..k - |head|]);
    }
  }
}
