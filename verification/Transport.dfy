/** The session's two halves (internal/sendspin/transport.go:31-147). */
module TransportClass {
  import opened TransportModel
  import opened TransportProofs
  import opened Wrappers

  class Session {
    var sent: nat
    var wire: seq<Packet>

    /** How many more frames the socket takes before it fails. */
    var willing: nat

    var nonce: nat
    var inFragment: bool
    var fragment: seq<Byte>
    var fragmentType: Byte
    var inbox: seq<Packet>

    ghost function Reading(): Reader
      reads this
    {
      Reader(nonce, inFragment, fragment, fragmentType, inbox)
    }

    constructor (willing: nat)
      ensures sent == 0 && wire == [] && this.willing == willing && Reading() == NEW_READER
    {
      sent, wire, this.willing := 0, [], willing;
      nonce, inFragment, fragment, fragmentType, inbox := 0, false, [], 0, [];
    }

    /** A frame is sealed, and put on the wire unless the socket fails. */
    method Seal(plain: seq<Byte>) returns (ok: bool)
      modifies `sent, `wire, `willing
      ensures sent == old(sent) + 1 && ok == (old(willing) > 0)
      ensures if ok then wire == old(wire) + SealAll(old(sent), [plain]) && willing == old(willing) - 1
              else wire == old(wire) && willing == 0
    {
      assert SealAll(sent + 1, []) == [];
      var packet := Packet(true, Sealed(sent, plain));
      sent := sent + 1;
      if willing == 0 { return false; }
      wire := wire + [packet];
      willing := willing - 1;
      return true;
    }

    /** The first fragment of what is left of a body, and how much of it that takes. */
    static method NextFragment(kind: Byte, left: seq<Byte>, first: bool) returns (n: nat, frame: seq<Byte>)
      requires |left| > 0
      ensures 0 < n <= |left|
      ensures Fragments(kind, left, first) == [frame] + Fragments(kind, left[n..], false)
    {
      var room := MAX_FRAME_BODY - 1;
      if first {
        room := room - 1;
      }
      n := if room <= |left| then room else |left|;
      var flags: Byte := 0;
      if first {
        flags := flags + FRAG_FIRST;
      }
      if n == |left| {
        flags := flags + FRAG_LAST;
      }
      frame := [MSG_FRAGMENT, flags];
      if first {
        frame := frame + [kind];
      } else {
        assert [MSG_FRAGMENT, flags] + [] + left[..n] == frame + left[..n];
      }
      frame := frame + left[..n];
    }

    /** As many of a message's frames as the socket takes are on the wire, all of them if it reports no error. */
    ghost predicate Sent(frames: seq<seq<Byte>>, ok: bool, wasSent: nat, wasWire: seq<Packet>, wasWilling: nat)
      reads this
    {
      && ok == (wasWilling >= |frames|)
      && var n := if ok then |frames| else wasWilling;
         wire == wasWire + SealAll(wasSent, frames[..n]) && (ok ==> sent == wasSent + n)
    }

    /** Refuses the fragment type, and otherwise puts every frame of the message on the wire, or fails on the way. */
    method WriteTyped(kind: Byte, body: seq<Byte>) returns (ok: bool)
      modifies `sent, `wire, `willing
      ensures kind == MSG_FRAGMENT ==> !ok && wire == old(wire) && sent == old(sent)
      ensures kind != MSG_FRAGMENT ==>
                Sent(Frames(Message(kind, body)), ok, old(sent), old(wire), old(willing))
    {
      if kind == MSG_FRAGMENT { return false; }
      if |body| <= MAX_FRAME_BODY {
        ok := Seal([kind] + body);
        NothingIsNoFrames(kind, old(sent), true);
        assert old(wire) + [] == old(wire);
        assert [[kind] + body][..1] == [[kind] + body];
        return;
      }
      ok := WriteFragments(kind, body);
    }

    method WriteFragments(kind: Byte, body: seq<Byte>) returns (ok: bool)
      modifies `sent, `wire, `willing
      ensures Sent(Fragments(kind, body, true), ok, old(sent), old(wire), old(willing))
    {
      hide Fragments, SealAll;
      ghost var frames := Fragments(kind, body, true);
      ghost var done: seq<seq<Byte>> := [];
      NothingIsNoFrames(kind, old(sent), true);
      var first, left := true, body;
      while |left| > 0
        invariant frames == done + Fragments(kind, left, first)
        invariant wire == old(wire) + SealAll(old(sent), done) && sent == old(sent) + |done|
        invariant willing == old(willing) - |done|
        decreases |left|
      {
        var n, frame := NextFragment(kind, left, first);
        assert done + ([frame] + Fragments(kind, left[n..], false)) ==
               done + [frame] + Fragments(kind, left[n..], false);
        ghost var before := wire;
        var went := Seal(frame);
        if !went {
          assert frames[..|done|] == done;
          return false;
        }
        SealAppends(old(sent), done, [frame]);
        assert old(wire) + (SealAll(old(sent), done) + SealAll(old(sent) + |done|, [frame])) ==
               before + SealAll(old(sent) + |done|, [frame]);
        done := done + [frame];
        left := left[n..];
        first := false;
      }
      assert left == [];
      NothingIsNoFrames(kind, 0, first);
      assert done + [] == done && frames[..|frames|] == done;
      return true;
    }

    /** The next whole message, or why there is none. */
    method Read() returns (outcome: Outcome)
      modifies `nonce, `inFragment, `fragment, `fragmentType, `inbox
      ensures (Reading(), outcome) == TransportModel.Read(old(Reading()))
    {
      hide TransportModel.TakeFrame;
      var frames := 0;
      while true
        invariant 0 <= frames <= MAX_MESSAGE_FRAMES
        invariant ReadFrom(Reading(), frames) == TransportModel.Read(old(Reading()))
        decreases MAX_MESSAGE_FRAMES - frames
      {
        frames := frames + 1;
        if frames > MAX_MESSAGE_FRAMES { return Err(TooManyFrames); }
        var taken := TakeFrame();
        match taken
        case Again =>
        case Finished(o) => return o;
      }
    }

    method TakeFrame() returns (taken: Taken)
      modifies `nonce, `inFragment, `fragment, `fragmentType, `inbox
      ensures (Reading(), taken) == TransportModel.TakeFrame(old(Reading()))
    {
      hide TransportModel.Reassemble;
      if inbox == [] { return Finished(Err(SocketClosed)); }
      var packet := inbox[0];
      inbox := inbox[1..];
      if !packet.binary { return Finished(Err(Cleartext)); }
      if packet.sealed.nonce != nonce { return Finished(Err(CannotOpen)); }
      var plain := packet.sealed.plain;
      nonce := nonce + 1;
      if |plain| < 1 { return Finished(Err(EmptyPlaintext)); }
      if plain[0] != MSG_FRAGMENT {
        if inFragment { return Finished(Err(InterruptsAFragment)); }
        return Finished(Ok(Message(plain[0], plain[1..])));
      }
      var step := Reassemble(plain);
      match step
      case Fail(e) => return Finished(Err(e));
      case More => return Again;
      case Done =>
        taken := Finished(Ok(Message(fragmentType, fragment)));
        inFragment, fragment, fragmentType := false, [], 0;
    }

    method Reassemble(plain: seq<Byte>) returns (step: Step)
      modifies `inFragment, `fragment, `fragmentType
      ensures (Reading(), step) == TransportModel.Reassemble(old(Reading()), plain)
    {
      if |plain| < 2 { return Fail(NoFlags); }
      var flags := plain[1];
      if flags >= 4 { return Fail(ReservedFlags); }
      var data := plain[2..];
      if flags / FRAG_FIRST % 2 != 0 {
        if inFragment { return Fail(FirstInFlight); }
        if |data| < 1 { return Fail(NoType); }
        if data[0] == MSG_FRAGMENT { return Fail(NamesItself); }
        inFragment, fragmentType, fragment := true, data[0], data[1..];
      } else {
        if !inFragment { return Fail(NothingInFlight); }
        fragment := fragment + data;
      }
      if |fragment| > MAX_MESSAGE { return Fail(TooBig); }
      return if flags % 2 != 0 then Done else More;
    }
  }
}
