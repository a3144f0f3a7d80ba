/**
 What `Read` gives of the frames a client sends, and of any bytes at all
 (internal/sendspin/ws.go:252-319).
 */
module WebSocketProofs {
  import opened WebSocketModel
  import opened WebSocketHeads
  import opened Wrappers

  import GoInt

  /** A client's frame; `data` is what it says once unmasked. */
  datatype Frame = Frame(fin: bool, op: Byte, mask: Mask, data: seq<Byte>)

  function HeadOf(f: Frame): Header {
    Header(f.fin, f.op, |f.data|, f.mask)
  }

  function Encode(f: Frame): seq<Byte>
  {
    ClientHead(HeadOf(f)) + Masked(f.data, f.mask)
  }

  predicate WellFormed(f: Frame) {
    LegalHead(HeadOf(f))
  }

  function EncodeAll(frames: seq<Frame>): seq<Byte>
  {
    if frames == [] then [] else Encode(frames[0]) + EncodeAll(frames[1..])
  }

  predicate IsAside(f: Frame) {
    f.op == OP_PING || f.op == OP_PONG
  }

  /**
   A message as sections 5.4 and 5.5 of RFC 6455 let a client send it: a text or
   binary frame, then continuations, the last of them final, with pings and pongs anywhere.
   */
  predicate Legal(frames: seq<Frame>, started: bool) {
    && frames != [] && WellFormed(frames[0])
    && if IsAside(frames[0]) then Legal(frames[1..], started)
       else
         && (if started then frames[0].op == OP_CONTINUATION
             else frames[0].op == OP_TEXT || frames[0].op == OP_BINARY)
         && if frames[0].fin then |frames| == 1 else Legal(frames[1..], true)
  }

  /** What the data frames carry, one after another. */
  function DataOf(frames: seq<Frame>): seq<Byte> {
    if frames == [] then []
    else (if IsAside(frames[0]) then [] else frames[0].data) + DataOf(frames[1..])
  }

  /** The opcode of the frame that began the message. */
  function KindOf(frames: seq<Frame>): Byte {
    if frames == [] then 0
    else if IsAside(frames[0]) then KindOf(frames[1..])
    else frames[0].op
  }

  /** The pongs owed, in order. */
  function Pongs(frames: seq<Frame>): seq<Byte> {
    if frames == [] then []
    else
      (if frames[0].op == OP_PING then Head(OP_PONG, |frames[0].data|) + frames[0].data else [])
      + Pongs(frames[1..])
  }

  function Pings(frames: seq<Frame>): nat {
    if frames == [] then 0 else (if frames[0].op == OP_PING then 1 else 0) + Pings(frames[1..])
  }

  predicate Within(frames: seq<Frame>, limit: nat) {
    forall i | 0 <= i < |frames| :: |frames[i].data| <= limit
  }

  lemma MaskedTwice(data: seq<Byte>, mask: Mask)
    ensures Masked(Masked(data, mask), mask) == data
  {
    forall i | 0 <= i < |data| ensures Masked(Masked(data, mask), mask)[i] == data[i] {
      XorTwice(data[i], mask[i % 4]);
    }
  }

  lemma ABitUndoesItself(a: nat, b: nat, high: nat)
    ensures ((a + b) % 2 + 2 * high + b) % 2 == a % 2 && ((a + b) % 2 + 2 * high) / 2 == high
  {
  }

  lemma {:induction false} XorUndoesItself(a: nat, b: nat, bits: nat)
    requires a < Power2(bits)
    ensures Xor(Xor(a, b, bits), b, bits) == a
  {
    if bits > 0 {
      XorUndoesItself(a / 2, b / 2, bits - 1);
      ABitUndoesItself(a, b, Xor(a / 2, b / 2, bits - 1));
    }
  }

  lemma XorTwice(a: Byte, b: Byte)
    ensures XorByte(XorByte(a, b), b) == a
  {
    assert Power2(4) == 16 && Power2(8) == 256;
    XorUndoesItself(a, b, 8);
  }

  /** A frame within the limit is taken off the stream whole. */
  lemma FrameIsTaken(c: Conn, b: Building, f: Frame, rest: seq<Byte>)
    requires WellFormed(f) && |f.data| <= c.limit
    requires c.inbox == Encode(f) + rest
    ensures TakeFrame(c, b) == Handle(c.(inbox := rest), b, f.fin, f.op, f.data)
  {
    hide ReadHeader, ClientHead, Handle, Masked;
    var body := Masked(f.data, f.mask);
    assert c.inbox == ClientHead(HeadOf(f)) + (body + rest);
    HeadIsRead(HeadOf(f), body + rest);
    TakeFrom(body, rest);
    MaskedTwice(f.data, f.mask);
  }

  /** Bytes taken off the stream as a frame are a client's encoding of it. */
  lemma OnlyFramesAreTaken(c: Conn, b: Building) returns (f: Frame, rest: seq<Byte>)
    requires TakeFrame(c, b).1.Again? || TakeFrame(c, b).1.outcome.Ok?
    ensures WellFormed(f) && |f.data| <= c.limit && c.inbox == Encode(f) + rest
    ensures TakeFrame(c, b) == Handle(c.(inbox := rest), b, f.fin, f.op, f.data)
  {
    hide ReadHeader, ClientHead, Masked, Handle;
    OnlyHeadsAreRead(c.inbox);
    var (after, h) := ReadHeader(c.inbox);
    TakeBack(after, h.value.length);
    var sent := Take(after, h.value.length).1.value;
    rest := Take(after, h.value.length).0;
    f := Frame(h.value.fin, h.value.op, h.value.mask, Masked(sent, h.value.mask));
    MaskedTwice(sent, h.value.mask);
    assert c.inbox == (ClientHead(h.value) + sent) + rest;
  }

  /** A message as far as it has been read. */
  predicate BuildingOk(b: Building) {
    !b.fragmented ==> b == NOTHING
  }

  /** What reading these frames comes to, with `b` of the message already read. */
  function ReadAs(c: Conn, b: Building, frames: seq<Frame>, rest: seq<Byte>): (Conn, Result<Message>)
    requires Pings(frames) <= c.willing
  {
    (c.(inbox := rest, outbox := c.outbox + Pongs(frames), willing := c.willing - Pings(frames)),
     Ok(Message((if b.fragmented then b.kind else KindOf(frames)) == OP_BINARY, b.msg + DataOf(frames))))
  }

  /** What the first frame adds to what the later ones come to. */
  lemma FirstFrameAdds(frames: seq<Frame>)
    requires frames != []
    ensures var f, later := frames[0], frames[1..];
      && Pings(frames) == Pings(later) + (if f.op == OP_PING then 1 else 0)
      && (f.op == OP_PING ==> Pongs(frames) == Head(OP_PONG, |f.data|) + f.data + Pongs(later))
      && (f.op != OP_PING ==> Pongs(frames) == Pongs(later))
      && (IsAside(f) ==> DataOf(frames) == DataOf(later) && KindOf(frames) == KindOf(later))
      && (!IsAside(f) ==> DataOf(frames) == f.data + DataOf(later) && KindOf(frames) == f.op)
  {
    hide Head;
    assert [] + DataOf(frames[1..]) == DataOf(frames[1..]) && [] + Pongs(frames[1..]) == Pongs(frames[1..]);
  }

  lemma AnAsideIsReadAs(c: Conn, b: Building, frames: seq<Frame>, after: seq<Byte>, rest: seq<Byte>)
    requires frames != [] && IsAside(frames[0]) && Pings(frames) <= c.willing
    ensures var (d, turn) := Handle(c.(inbox := after), b, frames[0].fin, frames[0].op, frames[0].data);
      && turn == Again(b) && d.limit == c.limit && d.inbox == after
      && Pings(frames[1..]) <= d.willing && DataOf(frames) == DataOf(frames[1..])
      && ReadAs(c, b, frames, rest) == ReadAs(d, b, frames[1..], rest)
  {
    hide Head, Pings, Pongs, DataOf, KindOf;
    var f, later := frames[0], frames[1..];
    FirstFrameAdds(frames);
    assert c.outbox + (Head(OP_PONG, |f.data|) + f.data + Pongs(later)) ==
           (c.outbox + Head(OP_PONG, |f.data|) + f.data) + Pongs(later);
  }

  predicate IsNext(b: Building, f: Frame) {
    if b.fragmented then f.op == OP_CONTINUATION else b == NOTHING && (f.op == OP_TEXT || f.op == OP_BINARY)
  }

  /** A data frame that may come next, and the message it makes. */
  lemma ADataFrameIsAdded(c: Conn, b: Building, f: Frame)
    requires IsNext(b, f) && |b.msg + f.data| <= c.limit
    ensures var kind := if b.fragmented then b.kind else f.op;
      Handle(c, b, f.fin, f.op, f.data) ==
      (c, if f.fin then Finished(Ok(Message(kind == OP_BINARY, b.msg + f.data)))
          else Again(Building(kind, true, b.msg + f.data)))
  {
    assert !b.fragmented ==> b.msg + f.data == f.data;
  }

  lemma ADataFrameIsReadAs(c: Conn, b: Building, frames: seq<Frame>, after: seq<Byte>, rest: seq<Byte>)
    requires frames != [] && IsNext(b, frames[0]) && Pings(frames) <= c.willing
    requires |b.msg + DataOf(frames)| <= c.limit
    requires frames[0].fin ==> |frames| == 1 && after == rest
    ensures var (d, turn) := Handle(c.(inbox := after), b, frames[0].fin, frames[0].op, frames[0].data);
      if frames[0].fin then turn.Finished? && ReadAs(c, b, frames, rest) == (d, turn.outcome)
      else
        && turn.Again? && d.limit == c.limit && d.inbox == after
        && turn.building.fragmented && Pings(frames[1..]) <= d.willing
        && turn.building.msg + DataOf(frames[1..]) == b.msg + DataOf(frames)
        && ReadAs(c, b, frames, rest) == ReadAs(d, turn.building, frames[1..], rest)
  {
    hide Handle, Head, Pings, Pongs, DataOf, KindOf;
    var f, later := frames[0], frames[1..];
    FirstFrameAdds(frames);
    ADataFrameIsAdded(c.(inbox := after), b, f);
    assert b.msg + (f.data + DataOf(later)) == (b.msg + f.data) + DataOf(later);
    if f.fin {
      NothingFollows(later, b.msg + f.data, c.outbox);
    }
  }

  lemma NothingFollows(later: seq<Frame>, msg: seq<Byte>, outbox: seq<Byte>)
    requires later == []
    ensures Pings(later) == 0 && msg + DataOf(later) == msg && outbox + Pongs(later) == outbox
  {
  }

  lemma {:induction false} LegalFramesAreReadFrom(
      c: Conn, b: Building, frames: seq<Frame>, rest: seq<Byte>, taken: nat)
    requires BuildingOk(b) && Legal(frames, b.fragmented)
    requires Within(frames, c.limit) && |b.msg + DataOf(frames)| <= c.limit
    requires taken + |frames| <= MAX_WS_FRAMES && Pings(frames) <= c.willing
    requires c.inbox == EncodeAll(frames) + rest
    ensures ReadFrom(c, b, taken) == ReadAs(c, b, frames, rest)
    decreases |frames|
  {
    hide TakeFrame, Handle, Encode, WellFormed, Pings, Pongs, DataOf, KindOf, ReadAs;
    var f, later := frames[0], frames[1..];
    var after := EncodeAll(later) + rest;
    assert c.inbox == Encode(f) + after;
    FrameIsTaken(c, b, f, after);
    if IsAside(f) {
      AnAsideIsReadAs(c, b, frames, after, rest);
    } else {
      ADataFrameIsReadAs(c, b, frames, after, rest);
    }
    var (d, turn) := TakeFrame(c, b);
    if turn.Again? {
      LegalFramesAreReadFrom(d, turn.building, later, rest, taken + 1);
    }
  }

  /**
   A message sent as the standard allows, in at most 4096 frames and within the
   limit, is read as the data its frames carry, whatever pings and pongs are among
   them; each ping is answered in turn with its own payload, and nothing that
   follows the message is touched.
   */
  lemma LegalFramesAreRead(c: Conn, frames: seq<Frame>, rest: seq<Byte>)
    requires Legal(frames, false) && |frames| <= MAX_WS_FRAMES
    requires Within(frames, c.limit) && |DataOf(frames)| <= c.limit && Pings(frames) <= c.willing
    requires c.inbox == EncodeAll(frames) + rest
    ensures Read(c) ==
            (c.(inbox := rest, outbox := c.outbox + Pongs(frames), willing := c.willing - Pings(frames)),
             Ok(Message(KindOf(frames) == OP_BINARY, DataOf(frames))))
  {
    hide ReadFrom, Pings, Pongs, DataOf, KindOf, Legal, EncodeAll;
    LegalFramesAreReadFrom(c, NOTHING, frames, rest, 0);
    assert [] + DataOf(frames) == DataOf(frames);
  }

  /** A frame that does not stop `Read` with an error is one that may come next. */
  lemma HandledFramesAreNext(c: Conn, b: Building, f: Frame)
    requires BuildingOk(b)
    requires var turn := Handle(c, b, f.fin, f.op, f.data).1; turn.Again? || turn.outcome.Ok?
    ensures var (d, turn) := Handle(c, b, f.fin, f.op, f.data);
      && d.limit == c.limit && d.inbox == c.inbox
      && c.willing == d.willing + (if f.op == OP_PING then 1 else 0)
      && if IsAside(f) then turn == Again(b)
         else
           && IsNext(b, f) && |b.msg + f.data| <= c.limit && f.fin == turn.Finished?
           && (turn.Again? ==> turn.building.fragmented && turn.building.msg == b.msg + f.data)
  {
    hide Head;
    assert !b.fragmented ==> b.msg + f.data == f.data;
  }

  lemma {:induction false} OnlyLegalFramesAreReadFrom(c: Conn, b: Building, taken: nat)
    returns (frames: seq<Frame>)
    requires BuildingOk(b) && |b.msg| <= c.limit
    requires ReadFrom(c, b, taken).1.Ok?
    ensures Legal(frames, b.fragmented) && taken + |frames| <= MAX_WS_FRAMES
    ensures Within(frames, c.limit) && |b.msg + DataOf(frames)| <= c.limit && Pings(frames) <= c.willing
    ensures c.inbox == EncodeAll(frames) + ReadFrom(c, b, taken).0.inbox
    decreases MAX_WS_FRAMES + 1 - taken
  {
    hide TakeFrame, Encode, WellFormed, Head, Pongs, KindOf;
    hide Handle;
    var f, rest := OnlyFramesAreTaken(c, b);
    HandledFramesAreNext(c.(inbox := rest), b, f);
    var (d, turn) := TakeFrame(c, b);
    if turn.Finished? {
      frames := [f];
      assert b.msg + f.data == b.msg + DataOf(frames);
      assert EncodeAll(frames) == Encode(f) + [];
      assert c.inbox == EncodeAll(frames) + d.inbox;
    } else {
      var later := OnlyLegalFramesAreReadFrom(d, turn.building, taken + 1);
      frames := [f] + later;
      assert frames[1..] == later;
      assert b.msg + DataOf(frames) == (b.msg + (if IsAside(f) then [] else f.data)) + DataOf(later);
      assert EncodeAll(frames) == Encode(f) + EncodeAll(later);
      assert c.inbox == Encode(f) + (EncodeAll(later) + ReadFrom(c, b, taken).0.inbox);
    }
  }

  /** And whatever bytes arrive, a message is read only out of frames such as those. */
  lemma OnlyLegalFramesAreRead(c: Conn) returns (frames: seq<Frame>)
    requires Read(c).1.Ok?
    ensures Legal(frames, false) && |frames| <= MAX_WS_FRAMES
    ensures Within(frames, c.limit) && |DataOf(frames)| <= c.limit && Pings(frames) <= c.willing
    ensures c.inbox == EncodeAll(frames) + Read(c).0.inbox
    ensures Read(c).1.value == Message(KindOf(frames) == OP_BINARY, DataOf(frames))
    ensures Read(c).0.outbox == c.outbox + Pongs(frames)
  {
    hide ReadFrom, Pings, Pongs, DataOf, KindOf, Legal, EncodeAll;
    frames := OnlyLegalFramesAreReadFrom(c, NOTHING, 0);
    assert [] + DataOf(frames) == DataOf(frames);
    LegalFramesAreRead(c, frames, Read(c).0.inbox);
  }

  // ---------- what Read may hold ----------

  /** The bytes `readPayload` makes room for, if it gets that far. */
  function Room(c: Conn): nat {
    var (_, h) := ReadHeader(c.inbox);
    if h.Ok? && h.value.length <= c.limit then h.value.length else 0
  }

  /**
   The most that is held at once, in any turn of the loop: a message and the payload
   just read, or, while the payload is being joined on, the message already grown
   by it and the payload itself.
   */
  function MostHeld(c: Conn, b: Building, taken: nat, joining: bool): nat
    decreases MAX_WS_FRAMES + 1 - taken
  {
    if taken + 1 > MAX_WS_FRAMES then |b.msg|
    else
      var (d, turn) := TakeFrame(c, b);
      var now := |b.msg| + Room(c) + if joining then Room(c) else 0;
      match turn
      case Again(more) => GoInt.Max(now, MostHeld(d, more, taken + 1, joining))
      case Finished(_) => now
  }

  lemma ATurnStaysWithinBounds(c: Conn, b: Building)
    requires |b.msg| <= c.limit
    ensures var (d, turn) := TakeFrame(c, b);
      && Room(c) <= c.limit && d.limit == c.limit
      && (turn.Again? ==> |turn.building.msg| <= c.limit && |turn.building.msg| <= |b.msg| + Room(c))
      && |d.inbox| <= |c.inbox|
      && (turn.Again? ==> |c.inbox| - |d.inbox| <= 14 + c.limit)
  {
    hide ReadLength, ClientHead;
    if ReadHeader(c.inbox).1.Ok? {
      var (rest, h) := ReadHeader(c.inbox);
      OnlyHeadsAreRead(c.inbox);
      HeadsAreShort(h.value);
      assert |c.inbox| == |ClientHead(h.value)| + |rest|;
    } else {
      HeadersOnlyConsume(c.inbox);
    }
  }

  lemma HeadsAreShort(h: Header)
    ensures |ClientHead(h)| <= 14
  {
  }

  lemma HeadersOnlyConsume(inbox: seq<Byte>)
    ensures |ReadHeader(inbox).0| <= |inbox|
  {
    hide HasTop, IsReserved, OpOf, CodeOf, Value;
  }

  /**
   Whatever arrives, over at most 4096 frames: a message and the payload to be joined
   to it never exceed twice the limit, nor does the message once joined; while it is
   being joined the payload is there besides, which makes three times.
   */
  lemma {:induction false} ReadHoldsAtMostTwiceItsLimit(c: Conn, b: Building, taken: nat)
    requires |b.msg| <= c.limit
    ensures MostHeld(c, b, taken, false) <= 2 * c.limit
    ensures MostHeld(c, b, taken, true) <= 3 * c.limit
    decreases MAX_WS_FRAMES + 1 - taken
  {
    hide TakeFrame, Room;
    if taken + 1 <= MAX_WS_FRAMES {
      ATurnStaysWithinBounds(c, b);
      var (d, turn) := TakeFrame(c, b);
      if turn.Again? {
        ReadHoldsAtMostTwiceItsLimit(d, turn.building, taken + 1);
      }
    }
  }
}
