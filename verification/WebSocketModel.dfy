/**
 Reading and writing WebSocket frames (internal/sendspin/ws.go), after sections
 5.2 to 5.5 of RFC 6455. The connection is a stream of bytes already on their way,
 which ends where they end; it takes some number of writes before it fails.
 */
module WebSocketModel {
  import opened Wrappers

  const OP_CONTINUATION: Byte := 0x0
  const OP_TEXT: Byte := 0x1
  const OP_BINARY: Byte := 0x2
  const OP_CLOSE: Byte := 0x8
  const OP_PING: Byte := 0x9
  const OP_PONG: Byte := 0xa

  const CLOSE_NO_STATUS := 1005
  const MAX_CONTROL_PAYLOAD := 125
  const MAX_WS_FRAMES := 4096

  /** One more than the largest length whose high bit is clear. */
  const LENGTH_LIMIT := 0x8000_0000_0000_0000

  datatype Error =
    | EndOfStream | WriteFailed | ReservedBits | NotMinimal | HighBit | FragmentedControl | LongControl
    | Unmasked | FrameTooBig | MessageTooBig | TooManyFrames | BeganInFlight | NothingInFlight
    | UnknownOpcode | OneByteClose | Closed(code: nat, reason: seq<Byte>)

  datatype Result<T> = Ok(value: T) | Err(error: Error)

  type Mask = m: seq<Byte> | |m| == 4 witness [0, 0, 0, 0]

  datatype Header = Header(fin: bool, op: Byte, length: nat, mask: Mask)

  datatype Message = Message(binary: bool, data: seq<Byte>)

  /** `willing` is how many more writes the connection takes. */
  datatype Conn = Conn(inbox: seq<Byte>, limit: nat, outbox: seq<Byte>, willing: nat)

  // ---------- numbers as bytes, the most significant first ----------

  function Value(b: seq<Byte>): nat {
    if b == [] then 0 else Value(b[..|b| - 1]) * 256 + b[|b| - 1]
  }

  function Digits(n: nat, k: nat): (b: seq<Byte>)
    ensures |b| == k
  {
    if k == 0 then [] else Digits(n / 256, k - 1) + [n % 256]
  }

  // ---------- the first two bytes of a frame ----------

  const TOP_BIT := 0x80

  function WithTop(b: Byte): Byte { if b < TOP_BIT then b + TOP_BIT else b }

  predicate HasTop(b: Byte) { b >= TOP_BIT }

  /** A first byte that sets one of the three bits RFC 6455 reserves. */
  predicate IsReserved(b: Byte) { b / 16 % 8 != 0 }

  function OpOf(b: Byte): Byte { b % 16 }

  function CodeOf(b: Byte): Byte { b % 128 }

  /** Exclusive or, bit by bit, of numbers of `bits` bits. */
  function Xor(a: nat, b: nat, bits: nat): nat {
    if bits == 0 then 0 else (a + b) % 2 + 2 * Xor(a / 2, b / 2, bits - 1)
  }

  function Power2(k: nat): nat {
    if k == 0 then 1 else 2 * Power2(k - 1)
  }

  lemma {:induction false} XorStaysInside(a: nat, b: nat, bits: nat)
    ensures Xor(a, b, bits) < Power2(bits)
  {
    if bits > 0 {
      XorStaysInside(a / 2, b / 2, bits - 1);
    }
  }

  function XorByte(a: Byte, b: Byte): Byte {
    XorStaysInside(a, b, 8);
    assert Power2(4) == 16 && Power2(8) == 256;
    Xor(a, b, 8)
  }

  // ---------- writing ----------

  predicate IsControl(op: Byte) {
    op >= OP_CLOSE
  }

  /** What a frame's second byte says of its length, and the bytes that follow when it says too little. */
  function LengthCode(n: nat): (c: nat)
    ensures c < 128
  {
    if n <= MAX_CONTROL_PAYLOAD then n else if n <= 0xffff then 126 else 127
  }

  function LengthBytes(n: nat): seq<Byte> {
    if n <= MAX_CONTROL_PAYLOAD then [] else if n <= 0xffff then Digits(n, 2) else Digits(n, 8)
  }

  /** The head of a frame of this side, which is whole and not masked. */
  function Head(op: Byte, n: nat): seq<Byte> {
    [WithTop(op), LengthCode(n)] + LengthBytes(n)
  }

  function Write(c: Conn, op: Byte, payload: seq<Byte>): (Conn, bool) {
    if c.willing == 0 then (c, false)
    else (c.(outbox := c.outbox + Head(op, |payload|) + payload, willing := c.willing - 1), true)
  }

  // ---------- reading a frame ----------

  /** The next `n` bytes, or whatever there is of them and the end of the stream. */
  function Take(inbox: seq<Byte>, n: nat): (seq<Byte>, Result<seq<Byte>>) {
    if |inbox| < n then ([], Err(EndOfStream)) else (inbox[n..], Ok(inbox[..n]))
  }

  function ReadLength(code: Byte, inbox: seq<Byte>): (seq<Byte>, Result<nat>) {
    if code == 126 then
      var (rest, e) := Take(inbox, 2);
      if e.Err? then (rest, Err(e.error))
      else if Value(e.value) < 126 then (rest, Err(NotMinimal))
      else (rest, Ok(Value(e.value)))
    else if code == 127 then
      var (rest, e) := Take(inbox, 8);
      if e.Err? then (rest, Err(e.error))
      else if Value(e.value) >= LENGTH_LIMIT then (rest, Err(HighBit))
      else if Value(e.value) <= 0xffff then (rest, Err(NotMinimal))
      else (rest, Ok(Value(e.value)))
    else (inbox, Ok(code))
  }

  function ReadHeader(inbox: seq<Byte>): (seq<Byte>, Result<Header>) {
    var (rest, b) := Take(inbox, 2);
    if b.Err? then (rest, Err(b.error)) else ReadOn(b.value[0], b.value[1], rest)
  }

  /** A head whose first two bytes are in hand. */
  function ReadOn(first: Byte, second: Byte, inbox: seq<Byte>): (seq<Byte>, Result<Header>) {
    if IsReserved(first) then (inbox, Err(ReservedBits))
    else
      var fin, op := HasTop(first), OpOf(first);
      var (rest, length) := ReadLength(CodeOf(second), inbox);
      if length.Err? then (rest, Err(length.error))
      else if IsControl(op) && !fin then (rest, Err(FragmentedControl))
      else if IsControl(op) && length.value > MAX_CONTROL_PAYLOAD then (rest, Err(LongControl))
      else if !HasTop(second) then (rest, Err(Unmasked))
      else
        var (rest, mask) := Take(rest, 4);
        if mask.Err? then (rest, Err(mask.error))
        else (rest, Ok(Header(fin, op, length.value, mask.value)))
  }

  /** Masking and unmasking are the same. */
  function Masked(data: seq<Byte>, mask: Mask): (r: seq<Byte>)
    ensures |r| == |data|
  {
    seq(|data|, i requires 0 <= i < |data| => XorByte(data[i], mask[i % 4]))
  }

  function ReadPayload(inbox: seq<Byte>, limit: nat, h: Header): (seq<Byte>, Result<seq<Byte>>)
  {
    if h.length > limit then (inbox, Err(FrameTooBig))
    else
      var (rest, payload) := Take(inbox, h.length);
      if payload.Err? then (rest, payload) else (rest, Ok(Masked(payload.value, h.mask)))
  }

  // ---------- reading a message ----------

  /** What `Read` has of a message so far. */
  datatype Building = Building(kind: Byte, fragmented: bool, msg: seq<Byte>)

  const NOTHING := Building(0, false, [])

  datatype Turn = Again(building: Building) | Finished(outcome: Result<Message>)

  function ParseClose(payload: seq<Byte>): Error {
    if |payload| == 0 then Closed(CLOSE_NO_STATUS, [])
    else if |payload| == 1 then OneByteClose
    else Closed(Value(payload[..2]), payload[2..])
  }

  /** A data frame is added to the message, which may be its last. */
  function Added(limit: nat, b: Building, fin: bool): Turn {
    if |b.msg| > limit then Finished(Err(MessageTooBig))
    else if fin then Finished(Ok(Message(b.kind == OP_BINARY, b.msg)))
    else Again(b.(fragmented := true))
  }

  /** What is done with a frame. */
  function Handle(c: Conn, b: Building, fin: bool, op: Byte, payload: seq<Byte>): (Conn, Turn) {
    if op == OP_PING then
      var (d, ok) := Write(c, OP_PONG, payload);
      if ok then (d, Again(b)) else (d, Finished(Err(WriteFailed)))
    else if op == OP_PONG then (c, Again(b))
    else if op == OP_CLOSE then
      var e := ParseClose(payload);
      (if e.Closed? then Write(c, OP_CLOSE, payload).0 else c, Finished(Err(e)))
    else if op == OP_TEXT || op == OP_BINARY then
      if b.fragmented then (c, Finished(Err(BeganInFlight)))
      else (c, Added(c.limit, Building(op, false, payload), fin))
    else if op == OP_CONTINUATION then
      if !b.fragmented then (c, Finished(Err(NothingInFlight)))
      else (c, Added(c.limit, b.(msg := b.msg + payload), fin))
    else (c, Finished(Err(UnknownOpcode)))
  }

  /** One turn of the loop of `Read`. */
  function TakeFrame(c: Conn, b: Building): (Conn, Turn) {
    var (rest, h) := ReadHeader(c.inbox);
    if h.Err? then (c.(inbox := rest), Finished(Err(h.error)))
    else
      var (rest, payload) := ReadPayload(rest, c.limit, h.value);
      if payload.Err? then (c.(inbox := rest), Finished(Err(payload.error)))
      else Handle(c.(inbox := rest), b, h.value.fin, h.value.op, payload.value)
  }

  /** The loop of `Read`, with `frames` frames already taken. */
  function ReadFrom(c: Conn, b: Building, frames: nat): (Conn, Result<Message>)
    decreases MAX_WS_FRAMES + 1 - frames
  {
    if frames + 1 > MAX_WS_FRAMES then (c, Err(TooManyFrames))
    else
      var (d, turn) := TakeFrame(c, b);
      match turn
      case Again(more) => ReadFrom(d, more, frames + 1)
      case Finished(outcome) => (d, outcome)
  }

  function Read(c: Conn): (Conn, Result<Message>) {
    ReadFrom(c, NOTHING, 0)
  }
}
