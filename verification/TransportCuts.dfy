/**
 A message cut into fragments in any way at all (internal/sendspin/transport.go:76-147).
 */
module TransportCuts {
  import opened TransportModel
  import opened TransportProofs
  import opened Wrappers

  function Joined(parts: seq<seq<Byte>>): seq<Byte> {
    if parts == [] then [] else parts[0] + Joined(parts[1..])
  }

  /** The frames of the later parts: 1 says a fragment is the last, 0 that more come. */
  function LaterFrames(parts: seq<seq<Byte>>): seq<seq<Byte>> {
    if parts == [] then []
    else [[1, if |parts| == 1 then 1 else 0] + parts[0]] + LaterFrames(parts[1..])
  }

  /** The first adds 2 to that, and names the type. */
  function FramesOf(kind: Byte, parts: seq<seq<Byte>>): seq<seq<Byte>>
    requires parts != []
  {
    [[1, if |parts| == 1 then 3 else 2, kind] + parts[0]] + LaterFrames(parts[1..])
  }

  lemma {:induction false} JoinedIsLonger(parts: seq<seq<Byte>>)
    requires parts != []
    ensures |parts[0]| <= |Joined(parts)| && |Joined(parts[1..])| <= |Joined(parts)|
  {
  }

  /** One turn of the loop of `Read`, over a later part. */
  lemma LaterPartIsTaken(r: Reader, part: seq<Byte>, last: bool, rest: seq<Packet>)
    requires r.inFragment && |r.fragment| + |part| <= 65535
    requires r.inbox == [Packet(true, Sealed(r.nonce, [1, if last then 1 else 0] + part))] + rest
    ensures TakeFrame(r) ==
            if last then
              (r.(nonce := r.nonce + 1, inFragment := false, fragment := [], fragmentType := 0, inbox := rest),
               Finished(Ok(Message(r.fragmentType, r.fragment + part))))
            else (r.(nonce := r.nonce + 1, fragment := r.fragment + part, inbox := rest), Again)
  {
    var flags: Byte := if last then 1 else 0;
    var t := r.(inbox := rest, nonce := r.nonce + 1);
    assert r.inbox[1..] == rest;
    ReadLaterFragment(t, part, flags);
  }

  lemma SealOne(nonce: nat, frame: seq<Byte>, frames: seq<seq<Byte>>)
    ensures SealAll(nonce, [frame] + frames) == [Packet(true, Sealed(nonce, frame))] + SealAll(nonce + 1, frames)
  {
    assert ([frame] + frames)[1..] == frames;
  }

  lemma {:induction false} LaterPartsAreRead(r: Reader, parts: seq<seq<Byte>>, taken: nat, rest: seq<Packet>)
    requires r.inFragment && parts != [] && taken + |parts| <= 4096
    requires |r.fragment + Joined(parts)| <= 65535
    requires r.inbox == SealAll(r.nonce, LaterFrames(parts)) + rest
    ensures ReadFrom(r, taken) ==
            (r.(nonce := r.nonce + |parts|, inFragment := false, fragment := [], fragmentType := 0, inbox := rest),
             Ok(Message(r.fragmentType, r.fragment + Joined(parts))))
    decreases |parts|
  {
    hide TakeFrame;
    var part, last := parts[0], |parts| == 1;
    JoinedIsLonger(parts);
    var frame := [1, if last then 1 else 0] + part;
    SealOne(r.nonce, frame, LaterFrames(parts[1..]));
    var later := SealAll(r.nonce + 1, LaterFrames(parts[1..])) + rest;
    assert r.inbox == [Packet(true, Sealed(r.nonce, frame))] + later;
    LaterPartIsTaken(r, part, last, later);
    if last {
      assert parts[1..] == [] && later == rest;
      assert part + [] == part;
    } else {
      assert r.fragment + Joined(parts) == r.fragment + part + Joined(parts[1..]);
      LaterPartsAreRead(
        r.(nonce := r.nonce + 1, fragment := r.fragment + part, inbox := later), parts[1..], taken + 1, rest);
    }
  }

  lemma FirstPartIsTaken(r: Reader, kind: Byte, part: seq<Byte>, last: bool, rest: seq<Packet>)
    requires Idle(r) && kind != 1 && |part| <= 65535
    requires r.inbox == [Packet(true, Sealed(r.nonce, [1, if last then 3 else 2, kind] + part))] + rest
    ensures TakeFrame(r) ==
            if last then (r.(nonce := r.nonce + 1, inbox := rest), Finished(Ok(Message(kind, part))))
            else
              (r.(nonce := r.nonce + 1, inFragment := true, fragment := part, fragmentType := kind, inbox := rest),
               Again)
  {
    var plain := [1, if last then 3 else 2, kind] + part;
    assert r.inbox[1..] == rest;
    assert plain[2..] == [kind] + part && plain[2..][1..] == part;
  }

  /**
   However a body of up to 65535 bytes is cut, into as many as 4096 fragments, empty
   ones among them, it is read whole, with nothing left in flight and what comes
   after it still to be read.
   */
  lemma AnyCutIsRead(r: Reader, kind: Byte, parts: seq<seq<Byte>>, rest: seq<Packet>)
    requires Idle(r) && kind != 1 && 0 < |parts| <= 4096 && |Joined(parts)| <= 65535
    requires r.inbox == SealAll(r.nonce, FramesOf(kind, parts)) + rest
    ensures Read(r) == (r.(nonce := r.nonce + |parts|, inbox := rest), Ok(Message(kind, Joined(parts))))
  {
    hide TakeFrame;
    var part, last := parts[0], |parts| == 1;
    JoinedIsLonger(parts);
    var frame := [1, if last then 3 else 2, kind] + part;
    SealOne(r.nonce, frame, LaterFrames(parts[1..]));
    var later := SealAll(r.nonce + 1, LaterFrames(parts[1..])) + rest;
    assert r.inbox == [Packet(true, Sealed(r.nonce, frame))] + later;
    FirstPartIsTaken(r, kind, part, last, later);
    if last {
      assert parts[1..] == [] && later == rest;
      assert part + [] == part;
    } else {
      LaterPartsAreRead(
        r.(nonce := r.nonce + 1, inFragment := true, fragment := part, fragmentType := kind, inbox := later),
        parts[1..], 1, rest);
    }
  }

  /** A message in more fragments than that is given up, however short they are. */
  lemma {:induction false} LaterPartsAreGivenUp(r: Reader, parts: seq<seq<Byte>>, taken: nat, rest: seq<Packet>)
    requires r.inFragment && taken <= 4096 < taken + |parts|
    requires |r.fragment + Joined(parts)| <= 65535
    requires r.inbox == SealAll(r.nonce, LaterFrames(parts)) + rest
    ensures ReadFrom(r, taken).1 == Err(TooManyFrames)
    decreases |parts|
  {
    hide TakeFrame;
    if taken < 4096 {
      var part := parts[0];
      JoinedIsLonger(parts);
      SealOne(r.nonce, [1, 0] + part, LaterFrames(parts[1..]));
      var later := SealAll(r.nonce + 1, LaterFrames(parts[1..])) + rest;
      assert r.inbox == [Packet(true, Sealed(r.nonce, [1, 0] + part))] + later;
      LaterPartIsTaken(r, part, false, later);
      assert r.fragment + Joined(parts) == r.fragment + part + Joined(parts[1..]);
      LaterPartsAreGivenUp(
        r.(nonce := r.nonce + 1, fragment := r.fragment + part, inbox := later), parts[1..], taken + 1, rest);
    }
  }

  lemma TooManyFragmentsAreGivenUp(r: Reader, kind: Byte, parts: seq<seq<Byte>>, rest: seq<Packet>)
    requires Idle(r) && kind != 1 && |parts| > 4096 && |Joined(parts)| <= 65535
    requires r.inbox == SealAll(r.nonce, FramesOf(kind, parts)) + rest
    ensures Read(r).1 == Err(TooManyFrames)
  {
    hide TakeFrame;
    var part := parts[0];
    JoinedIsLonger(parts);
    SealOne(r.nonce, [1, 2, kind] + part, LaterFrames(parts[1..]));
    var later := SealAll(r.nonce + 1, LaterFrames(parts[1..])) + rest;
    assert r.inbox == [Packet(true, Sealed(r.nonce, [1, 2, kind] + part))] + later;
    FirstPartIsTaken(r, kind, part, false, later);
    LaterPartsAreGivenUp(
      r.(nonce := r.nonce + 1, inFragment := true, fragment := part, fragmentType := kind, inbox := later),
      parts[1..], 1, rest);
  }

  // ---------- how the writer cuts ----------

  /** A frame is its type and body, and sixteen bytes of the cipher; no sealed frame is longer than 65535. */
  predicate Full(frame: seq<Byte>) {
    |frame| + 16 == 65535
  }

  predicate AllButTheLastFull(frames: seq<seq<Byte>>) {
    forall i | 0 <= i < |frames| - 1 :: Full(frames[i])
  }

  /**
   A body goes out in one frame if that is no longer than 65535 bytes sealed, and else
   in fragments as long as that, all but the last.
   */
  lemma EveryFrameButTheLastIsFull(m: Message)
    ensures 1 + |m.body| + 16 <= 65535 ==> Frames(m) == [[m.kind] + m.body]
    ensures 1 + |m.body| + 16 > 65535 ==>
              |Frames(m)| >= 2 && AllButTheLastFull(Frames(m))
  {
    if |m.body| > MAX_FRAME_BODY {
      FragmentsAreFull(m.kind, m.body, true);
      assert m.body[MAX_FRAME_BODY - 2..] != [];
      assert Fragments(m.kind, m.body[MAX_FRAME_BODY - 2..], false) != [];
      assert Frames(m)[1..] == Fragments(m.kind, m.body[MAX_FRAME_BODY - 2..], false);
    }
  }

  lemma {:induction false} FragmentsAreFull(kind: Byte, body: seq<Byte>, first: bool)
    ensures AllButTheLastFull(Fragments(kind, body, first))
    decreases |body|
  {
    if body != [] {
      var room := if first then MAX_FRAME_BODY - 2 else MAX_FRAME_BODY - 1;
      var n := if room <= |body| then room else |body|;
      FragmentsAreFull(kind, body[n..], false);
      var frames, later := Fragments(kind, body, first), Fragments(kind, body[n..], false);
      assert n == |body| ==> later == [];
      assert frames[1..] == later && |frames| == |later| + 1;
      forall i | 0 <= i < |frames| - 1 ensures Full(frames[i]) {
        if i > 0 {
          assert frames[i] == later[i - 1];
        } else {
          assert n == room && |frames[0]| == 2 + (if first then 1 else 0) + n;
        }
      }
    }
  }

  // ---------- what is refused ----------

  /** Every other frame that may come, and why it ends the reading. */
  predicate Refused(r: Reader, plain: seq<Byte>, why: Error) {
    match why
    case EmptyPlaintext => plain == []
    case InterruptsAFragment => r.inFragment && |plain| >= 1 && plain[0] != 1
    case NoFlags => plain == [1]
    case ReservedFlags => |plain| >= 2 && plain[0] == 1 && plain[1] >= 4
    case FirstInFlight => |plain| >= 2 && plain[0] == 1 && 2 <= plain[1] < 4 && r.inFragment
    case NoType => |plain| == 2 && plain[0] == 1 && 2 <= plain[1] < 4 && !r.inFragment
    case NamesItself => |plain| >= 3 && plain[0] == 1 && 2 <= plain[1] < 4 && !r.inFragment && plain[2] == 1
    case NothingInFlight => |plain| >= 2 && plain[0] == 1 && plain[1] < 2 && !r.inFragment
    case TooBig =>
      |plain| >= 2 && plain[0] == 1 && plain[1] < 4 && (plain[1] >= 2 <==> !r.inFragment)
      && if r.inFragment then |r.fragment| + |plain| - 2 > 65535
         else |plain| >= 3 && plain[2] != 1 && |plain| - 3 > 65535
    case _ => false
  }

  /** A frame that opens ends the reading with an error exactly when it is one of these, and the error says which. */
  lemma OnlyTheseAreRefused(r: Reader, plain: seq<Byte>, why: Error)
    ensures Opened(r, plain).1 == Finished(Err(why)) <==> Refused(r, plain, why)
  {
  }

  /** And before that, one that is not binary or was not sealed next. */
  lemma OnlySealedFramesAreOpened(r: Reader)
    requires r.inbox != []
    ensures var p := r.inbox[0];
      && (!p.binary ==> TakeFrame(r).1 == Finished(Err(Cleartext)))
      && (p.binary && p.sealed.nonce != r.nonce ==> TakeFrame(r).1 == Finished(Err(CannotOpen)))
      && (p.binary && p.sealed.nonce == r.nonce ==>
            TakeFrame(r) == Opened(r.(inbox := r.inbox[1..], nonce := r.nonce + 1), p.sealed.plain))
  {
  }
}
