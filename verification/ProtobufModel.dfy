/**
 Protocol Buffers messages (internal/esphome/proto.go): a writer of fields and a
 walk over them, after Base 128 Varints and Message Structure in the Protocol
 Buffers encoding specification.
 */
module ProtobufModel {
  import opened Wrappers

  import GoInt

  const UINT64 := 0x1_0000_0000_0000_0000
  const UINT32 := 0x1_0000_0000

  const WIRE_VARINT := 0
  const WIRE_FIXED64 := 1
  const WIRE_BYTES := 2
  const WIRE_FIXED32 := 5
  const MAX_FIELD := 0x1fffffff

  // ---------- writing ----------

  /** Seven bits a byte, the lowest first; every byte but the last has its top bit set. */
  function Varint(v: nat): (b: seq<Byte>)
    ensures b != []
  {
    if v >= 0x80 then [v % 0x80 + 0x80] + Varint(v / 0x80) else [v]
  }

  function LittleEndian(v: nat, size: nat): (b: seq<Byte>)
    ensures |b| == size
  {
    if size == 0 then [] else [v % 256] + LittleEndian(v / 256, size - 1)
  }

  function FromLittleEndian(b: seq<Byte>): nat {
    if b == [] then 0 else b[0] + 256 * FromLittleEndian(b[1..])
  }

  /** A field number is converted to 64 unsigned bits, and its top three are shifted out. */
  function Tag(field: int, wire: nat): nat {
    field * 8 % UINT64 + wire
  }

  /** What the writer is asked to append. */
  datatype Call =
    | U32(field: int, v: nat)
    | Boolean(field: int, on: bool)
    | Str(field: int, data: seq<Byte>)
    | Sub(field: int, data: seq<Byte>)
    | Fixed32(field: int, v: nat)

  /** The types of the writer's arguments. */
  predicate Typed(c: Call) {
    && GoInt.FitsInt64(c.field)
    && (c.U32? || c.Fixed32? ==> c.v < UINT32)
    && (c.Str? || c.Sub? ==> |c.data| < GoInt.INT64_LIMIT)
  }

  function WireOf(c: Call): nat {
    match c
    case U32(_, _) | Boolean(_, _) => WIRE_VARINT
    case Str(_, _) | Sub(_, _) => WIRE_BYTES
    case Fixed32(_, _) => WIRE_FIXED32
  }

  function BodyOf(c: Call): seq<Byte> {
    match c
    case U32(_, v) => Varint(v)
    case Boolean(_, on) => Varint(if on then 1 else 0)
    case Str(_, data) => Varint(|data|) + data
    case Sub(_, data) => Varint(|data|) + data
    case Fixed32(_, v) => LittleEndian(v, 4)
  }

  function Appended(c: Call): seq<Byte> {
    Varint(Tag(c.field, WireOf(c))) + BodyOf(c)
  }

  function Written(calls: seq<Call>): seq<Byte> {
    if calls == [] then [] else Appended(calls[0]) + Written(calls[1..])
  }

  // ---------- walking ----------

  datatype Entry = Entry(field: nat, wire: nat, num: nat, data: seq<Byte>)

  datatype Error =
    | BadTag | FieldOutOfRange | BadVarint(field: nat) | ShortFixed32(field: nat) | ShortBytes(field: nat)
    | ShortFixed64(field: nat) | UnsupportedWire(wire: nat, field: nat)

  /**
   The library's reading of a varint, `i` bytes into it: its value and how many
   bytes it took, or nothing if it does not end or does not fit in 64 bits.
   */
  function Uvarint(b: seq<Byte>, i: nat): Option<(nat, nat)> {
    if b == [] || i >= 10 then None
    else if b[0] < 0x80 then
      if i == 9 && b[0] > 1 then None else Some((b[0], 1))
    else
      match Uvarint(b[1..], i + 1)
      case None => None
      case Some((high, n)) => Some((b[0] - 0x80 + 0x80 * high, n + 1))
  }

  lemma {:induction false} UvarintSize(b: seq<Byte>, i: nat)
    ensures Uvarint(b, i).Some? ==> 1 <= Uvarint(b, i).value.1 <= |b|
    decreases |b|
  {
    if b != [] {
      UvarintSize(b[1..], i + 1);
    }
  }

  datatype Step = Visit(entry: Entry, rest: seq<Byte>) | Stop(error: Error)

  /** The value after a tag. */
  function Body(field: nat, wire: nat, msg: seq<Byte>): Step {
    if wire == WIRE_VARINT then
      match Uvarint(msg, 0)
      case None => Stop(BadVarint(field))
      case Some((v, n)) => UvarintSize(msg, 0); Visit(Entry(field, wire, v, []), msg[n..])
    else if wire == WIRE_FIXED32 then
      if |msg| < 4 then Stop(ShortFixed32(field))
      else Visit(Entry(field, wire, FromLittleEndian(msg[..4]), []), msg[4..])
    else if wire == WIRE_BYTES then
      match Uvarint(msg, 0)
      case None => Stop(ShortBytes(field))
      case Some((l, n)) =>
        UvarintSize(msg, 0);
        if |msg| - n < l then Stop(ShortBytes(field))
        else Visit(Entry(field, wire, 0, msg[n..n + l]), msg[n + l..])
    else if wire == WIRE_FIXED64 then
      if |msg| < 8 then Stop(ShortFixed64(field))
      else Visit(Entry(field, wire, FromLittleEndian(msg[..8]), []), msg[8..])
    else Stop(UnsupportedWire(wire, field))
  }

  /** One turn of the loop of `pbWalk`. */
  function Next(msg: seq<Byte>): (s: Step)
    ensures s.Visit? ==> |s.rest| < |msg|
  {
    match Uvarint(msg, 0)
    case None => Stop(BadTag)
    case Some((key, n)) =>
      UvarintSize(msg, 0);
      if key / 8 > MAX_FIELD then Stop(FieldOutOfRange)
      else
        BodyShrinks(key / 8, key % 8, msg[n..]);
        Body(key / 8, key % 8, msg[n..])
  }

  lemma BodyShrinks(field: nat, wire: nat, msg: seq<Byte>)
    ensures var s := Body(field, wire, msg); s.Visit? ==> |s.rest| <= |msg|
  {
    UvarintSize(msg, 0);
  }

  /** Everything visited, and the error that stopped the walk if one did. */
  function Walk(msg: seq<Byte>): (seq<Entry>, Option<Error>)
    decreases |msg|
  {
    if msg == [] then ([], None)
    else
      match Next(msg)
      case Stop(e) => ([], Some(e))
      case Visit(entry, rest) => ([entry] + Walk(rest).0, Walk(rest).1)
  }
}
