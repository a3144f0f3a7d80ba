/**
 Typed messages over an encrypted transport (internal/sendspin/transport.go). A
 message too long for one frame is cut into fragments and put together again.

 The cipher is taken to be what the handshake promises of it: it adds sixteen
 bytes, and frames open only in the order they were sealed.
 */
module TransportModel {
  import opened Wrappers

  const MSG_FRAGMENT: Byte := 1
  const MAX_NOISE_MESSAGE := 65535
  const AEAD_TAG := 16
  const MAX_FRAME_BODY := MAX_NOISE_MESSAGE - AEAD_TAG - 1
  const MAX_MESSAGE := 65535
  const MAX_MESSAGE_FRAMES := 4096
  const FRAG_LAST := 1
  const FRAG_FIRST := 2

  datatype Sealed = Sealed(nonce: nat, plain: seq<Byte>) {
    function Size(): nat { |plain| + AEAD_TAG }
  }

  /** One message of the WebSocket underneath. */
  datatype Packet = Packet(binary: bool, sealed: Sealed)

  datatype Message = Message(kind: Byte, body: seq<Byte>)

  // ---------- writing ----------

  /** The loop of `WriteTyped`: what is left of a body, in fragments. */
  function Fragments(kind: Byte, body: seq<Byte>, first: bool): (frames: seq<seq<Byte>>)
    decreases |body|
  {
    if body == [] then []
    else
      var room := if first then MAX_FRAME_BODY - 2 else MAX_FRAME_BODY - 1;
      var n := if room <= |body| then room else |body|;
      var flags: Byte := (if first then FRAG_FIRST else 0) + (if n == |body| then FRAG_LAST else 0);
      var frame := [MSG_FRAGMENT, flags] + (if first then [kind] else []) + body[..n];
      [frame] + Fragments(kind, body[n..], false)
  }

  /** The frames a message goes out in. */
  function Frames(m: Message): seq<seq<Byte>> {
    if |m.body| <= MAX_FRAME_BODY then [[m.kind] + m.body]
    else Fragments(m.kind, m.body, true)
  }

  /** Frames sealed one after another from a given nonce. */
  function SealAll(nonce: nat, frames: seq<seq<Byte>>): seq<Packet>
    decreases |frames|
  {
    if frames == [] then []
    else [Packet(true, Sealed(nonce, frames[0]))] + SealAll(nonce + 1, frames[1..])
  }

  // ---------- reading ----------

  datatype Error =
    | TooManyFrames | SocketClosed | Cleartext | CannotOpen | EmptyPlaintext
    | InterruptsAFragment | NoFlags | ReservedFlags | FirstInFlight | NoType | NamesItself
    | NothingInFlight | TooBig

  datatype Outcome = Ok(message: Message) | Err(error: Error)

  /** The reading half of a session. */
  datatype Reader = Reader(
    nonce: nat, inFragment: bool, fragment: seq<Byte>, fragmentType: Byte, inbox: seq<Packet>)

  const NEW_READER := Reader(0, false, [], 0, [])

  datatype Step = More | Done | Fail(error: Error)

  function Reassemble(r: Reader, plain: seq<Byte>): (Reader, Step) {
    if |plain| < 2 then (r, Fail(NoFlags))
    else
      var flags, data := plain[1], plain[2..];
      if flags >= 4 then (r, Fail(ReservedFlags))
      else if flags / FRAG_FIRST % 2 != 0 then
        if r.inFragment then (r, Fail(FirstInFlight))
        else if |data| < 1 then (r, Fail(NoType))
        else if data[0] == MSG_FRAGMENT then (r, Fail(NamesItself))
        else Grown(r.(inFragment := true, fragmentType := data[0], fragment := data[1..]), flags)
      else
        if !r.inFragment then (r, Fail(NothingInFlight))
        else Grown(r.(fragment := r.fragment + data), flags)
  }

  function Grown(r: Reader, flags: Byte): (Reader, Step) {
    if |r.fragment| > MAX_MESSAGE then (r, Fail(TooBig))
    else (r, if flags % 2 != 0 then Done else More)
  }

  datatype Taken = Again | Finished(outcome: Outcome)

  /** One turn of the loop of `Read`: the next frame is opened and put where it belongs. */
  function TakeFrame(r: Reader): (Reader, Taken) {
    if r.inbox == [] then (r, Finished(Err(SocketClosed)))
    else
      var packet, t := r.inbox[0], r.(inbox := r.inbox[1..]);
      if !packet.binary then (t, Finished(Err(Cleartext)))
      else if packet.sealed.nonce != t.nonce then (t, Finished(Err(CannotOpen)))
      else Opened(t.(nonce := t.nonce + 1), packet.sealed.plain)
  }

  function Opened(r: Reader, plain: seq<Byte>): (Reader, Taken) {
    if |plain| < 1 then (r, Finished(Err(EmptyPlaintext)))
    else if plain[0] != MSG_FRAGMENT then
      if r.inFragment then (r, Finished(Err(InterruptsAFragment)))
      else (r, Finished(Ok(Message(plain[0], plain[1..]))))
    else
      var (t, step) := Reassemble(r, plain);
      match step
      case Fail(e) => (t, Finished(Err(e)))
      case More => (t, Again)
      case Done =>
        (t.(inFragment := false, fragment := [], fragmentType := 0),
         Finished(Ok(Message(t.fragmentType, t.fragment))))
  }

  /** The loop of `Read`, with `frames` frames already taken. */
  function ReadFrom(r: Reader, frames: nat): (Reader, Outcome)
    decreases MAX_MESSAGE_FRAMES + 1 - frames
  {
    if frames + 1 > MAX_MESSAGE_FRAMES then (r, Err(TooManyFrames))
    else
      var (t, taken) := TakeFrame(r);
      match taken
      case Again => ReadFrom(t, frames + 1)
      case Finished(outcome) => (t, outcome)
  }

  function Read(r: Reader): (Reader, Outcome) {
    ReadFrom(r, 0)
  }
}
