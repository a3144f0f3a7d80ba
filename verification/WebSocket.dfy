/** The server's side of one WebSocket connection (internal/sendspin/ws.go). */
module WebSocketClass {
  import Model = WebSocketModel
  import opened WebSocketModel
  import opened Wrappers

  class Connection {
    var inbox: seq<Byte>
    var limit: nat
    var outbox: seq<Byte>
    var willing: nat

    ghost function Abs(): Conn
      reads this
    {
      Conn(inbox, limit, outbox, willing)
    }

    constructor (inbox: seq<Byte>, limit: nat, willing: nat)
      ensures Abs() == Conn(inbox, limit, [], willing)
    {
      this.inbox, this.limit, this.outbox, this.willing := inbox, limit, [], willing;
    }

    static method HeadOf(first: Byte, ghost op: Byte, n: nat) returns (head: seq<Byte>)
      requires first == WithTop(op)
      ensures head == Head(op, n)
    {
      hide WithTop, Digits;
      if n <= MAX_CONTROL_PAYLOAD {
        return [first, n];
      } else if n <= 0xffff {
        return [first, 126] + Digits(n, 2);
      } else {
        return [first, 127] + Digits(n, 8);
      }
    }

    method Write(op: Byte, payload: seq<Byte>) returns (ok: bool)
      modifies `outbox, `willing
      ensures (Abs(), ok) == Model.Write(old(Abs()), op, payload)
    {
      hide Head;
      if willing == 0 { return false; }
      willing := willing - 1;
      var head := HeadOf(WithTop(op), op, |payload|);
      assert old(outbox) + (head + payload) == old(outbox) + head + payload;
      outbox := outbox + (head + payload);
      return true;
    }

    /** The next `n` bytes of the stream. */
    method ReadFull(n: nat) returns (b: Result<seq<Byte>>)
      modifies `inbox
      ensures (inbox, b) == Take(old(inbox), n)
    {
      if |inbox| < n {
        inbox := [];
        return Err(EndOfStream);
      }
      b := Ok(inbox[..n]);
      inbox := inbox[n..];
    }

    method ReadLength(code: Byte) returns (length: Result<nat>)
      modifies `inbox
      ensures (inbox, length) == Model.ReadLength(code, old(inbox))
    {
      if code == 126 {
        var e := ReadFull(2);
        if e.Err? { return Err(e.error); }
        var n := Value(e.value);
        if n < 126 { return Err(NotMinimal); }
        return Ok(n);
      }
      if code == 127 {
        var e := ReadFull(8);
        if e.Err? { return Err(e.error); }
        var n := Value(e.value);
        if n >= LENGTH_LIMIT { return Err(HighBit); }
        if n <= 0xffff { return Err(NotMinimal); }
        return Ok(n);
      }
      return Ok(code);
    }

    method ReadHeader() returns (h: Result<Header>)
      modifies `inbox
      ensures (inbox, h) == Model.ReadHeader(old(inbox))
    {
      hide IsReserved, HasTop, OpOf, CodeOf, Model.ReadLength;
      var b := ReadFull(2);
      if b.Err? { return Err(b.error); }
      var first, second := b.value[0], b.value[1];
      if IsReserved(first) { return Err(ReservedBits); }
      var fin, op := HasTop(first), OpOf(first);
      var length := ReadLength(CodeOf(second));
      if length.Err? { return Err(length.error); }
      if IsControl(op) {
        if !fin { return Err(FragmentedControl); }
        if length.value > MAX_CONTROL_PAYLOAD { return Err(LongControl); }
      }
      if !HasTop(second) { return Err(Unmasked); }
      var mask := ReadFull(4);
      if mask.Err? { return Err(mask.error); }
      return Ok(Header(fin, op, length.value, mask.value));
    }

    /** Unmasks in place. */
    static method Unmask(payload: array<Byte>, mask: Mask)
      modifies payload
      ensures payload[..] == Masked(old(payload[..]), mask)
    {
      for i := 0 to payload.Length
        invariant forall k | 0 <= k < i :: payload[k] == XorByte(old(payload[k]), mask[k % 4])
        invariant forall k | i <= k < payload.Length :: payload[k] == old(payload[k])
      {
        payload[i] := XorByte(payload[i], mask[i % 4]);
      }
    }

    method ReadPayload(h: Header) returns (payload: Result<seq<Byte>>)
      modifies `inbox
      ensures (inbox, payload) == Model.ReadPayload(old(inbox), limit, h)
    {
      if h.length > limit { return Err(FrameTooBig); }
      var sent := ReadFull(h.length);
      if sent.Err? { return sent; }
      var bytes := new Byte[h.length](i requires 0 <= i < |sent.value| => sent.value[i]);
      assert bytes[..] == sent.value;
      Unmask(bytes, h.mask);
      return Ok(bytes[..]);
    }

    /** The next message, answering pings on the way, or why there is none. */
    method Read() returns (outcome: Result<Message>)
      modifies `inbox, `outbox, `willing
      ensures (Abs(), outcome) == Model.Read(old(Abs()))
    {
      hide Model.TakeFrame;
      var frames, building := 0, NOTHING;
      while true
        invariant 0 <= frames <= MAX_WS_FRAMES
        invariant ReadFrom(Abs(), building, frames) == Model.Read(old(Abs()))
        decreases MAX_WS_FRAMES - frames
      {
        frames := frames + 1;
        if frames > MAX_WS_FRAMES { return Err(TooManyFrames); }
        var turn := TakeFrame(building);
        match turn
        case Again(more) => building := more;
        case Finished(o) => return o;
      }
    }

    method TakeFrame(b: Building) returns (turn: Turn)
      modifies `inbox, `outbox, `willing
      ensures (Abs(), turn) == Model.TakeFrame(old(Abs()), b)
    {
      hide Model.ReadHeader, Model.ReadPayload, Model.Handle;
      var h := ReadHeader();
      if h.Err? { return Finished(Err(h.error)); }
      var payload := ReadPayload(h.value);
      if payload.Err? { return Finished(Err(payload.error)); }
      turn := Handle(b, h.value.fin, h.value.op, payload.value);
    }

    method Handle(b: Building, fin: bool, op: Byte, payload: seq<Byte>) returns (turn: Turn)
      modifies `outbox, `willing
      ensures (Abs(), turn) == Model.Handle(old(Abs()), b, fin, op, payload)
    {
      hide Model.Write;
      if op == OP_PING {
        var ok := Write(OP_PONG, payload);
        return if ok then Again(b) else Finished(Err(WriteFailed));
      }
      if op == OP_PONG { return Again(b); }
      if op == OP_CLOSE {
        var e := ParseClose(payload);
        if e == OneByteClose { return Finished(Err(e)); }
        var _ := Write(OP_CLOSE, payload);
        return Finished(Err(e));
      }
      var kind, msg := b.kind, b.msg;
      if op == OP_TEXT || op == OP_BINARY {
        if b.fragmented { return Finished(Err(BeganInFlight)); }
        kind, msg := op, payload;
      } else if op == OP_CONTINUATION {
        if !b.fragmented { return Finished(Err(NothingInFlight)); }
        msg := msg + payload;
      } else {
        return Finished(Err(UnknownOpcode));
      }
      if |msg| > limit { return Finished(Err(MessageTooBig)); }
      if fin { return Finished(Ok(Message(kind == OP_BINARY, msg))); }
      return Again(Building(kind, true, msg));
    }
  }
}
