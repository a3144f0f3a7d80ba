/**
 Fragmenting and reassembling undo each other, whoever writes
 (internal/sendspin/transport.go:31-66, 76-147).
 */
module TransportProofs {
  import opened TransportModel
  import opened Wrappers

  /** Every sealed frame fits the transport, however long the body. */
  lemma {:induction false} FragmentsFit(kind: Byte, body: seq<Byte>, first: bool)
    ensures forall i | 0 <= i < |Fragments(kind, body, first)| ::
              2 <= |Fragments(kind, body, first)[i]| <= MAX_NOISE_MESSAGE - AEAD_TAG
    decreases |body|
  {
    if body != [] {
      var room := if first then MAX_FRAME_BODY - 2 else MAX_FRAME_BODY - 1;
      var n := if room <= |body| then room else |body|;
      FragmentsFit(kind, body[n..], false);
    }
  }

  lemma FramesFit(m: Message)
    ensures forall i | 0 <= i < |Frames(m)| :: Sealed(0, Frames(m)[i]).Size() <= MAX_NOISE_MESSAGE
  {
    if |m.body| > MAX_FRAME_BODY {
      FragmentsFit(m.kind, m.body, true);
    }
  }

  /** Nothing of a body is left out of its fragments, and nothing sent twice. */
  function Carried(frames: seq<seq<Byte>>): seq<Byte> {
    if frames == [] then []
    else (if |frames[0]| >= 2 then frames[0][2..] else []) + Carried(frames[1..])
  }

  lemma {:induction false} FragmentsCarryTheBody(kind: Byte, body: seq<Byte>, first: bool)
    ensures Carried(Fragments(kind, body, first)) ==
            (if first && body != [] then [kind] else []) + body
    decreases |body|
  {
    if body != [] {
      var room := if first then MAX_FRAME_BODY - 2 else MAX_FRAME_BODY - 1;
      var n := if room <= |body| then room else |body|;
      FragmentsCarryTheBody(kind, body[n..], false);
      var frames := Fragments(kind, body, first);
      assert frames[1..] == Fragments(kind, body[n..], false);
      assert frames[0][2..] == (if first then [kind] else []) + body[..n];
      assert body == body[..n] + body[n..];
    }
  }

  /** A reader waiting at the start of a message. */
  predicate Idle(r: Reader) {
    !r.inFragment && r.fragment == [] && r.fragmentType == 0
  }

  /** A body of up to 65535 bytes that one frame does not hold goes out in two. */
  lemma TwoFragments(m: Message)
    requires MAX_FRAME_BODY < |m.body| <= MAX_MESSAGE
    ensures var n := MAX_FRAME_BODY - 2;
      Frames(m) == [[MSG_FRAGMENT, FRAG_FIRST, m.kind] + m.body[..n],
                    [MSG_FRAGMENT, FRAG_LAST] + m.body[n..]]
  {
    var n := MAX_FRAME_BODY - 2;
    var rest := m.body[n..];
    assert rest[..|rest|] == rest && rest[|rest|..] == [];
    assert [MSG_FRAGMENT, FRAG_LAST] + [] + rest == [MSG_FRAGMENT, FRAG_LAST] + rest;
    assert Fragments(m.kind, [], false) == [];
    assert Fragments(m.kind, rest, false) == [[MSG_FRAGMENT, FRAG_LAST] + rest];
    assert [MSG_FRAGMENT, FRAG_FIRST] + [m.kind] + m.body[..n] == [MSG_FRAGMENT, FRAG_FIRST, m.kind] + m.body[..n];
  }

  lemma SealTwo(nonce: nat, a: seq<Byte>, b: seq<Byte>)
    ensures SealAll(nonce, [a, b]) ==
            [Packet(true, Sealed(nonce, a)), Packet(true, Sealed(nonce + 1, b))]
  {
    assert [a, b][1..] == [b] && [b][1..] == [];
    assert SealAll(nonce + 1, [b]) == [Packet(true, Sealed(nonce + 1, b))];
  }

  /** Taking the first fragment of a message. */
  lemma ReadFirstFragment(r: Reader, kind: Byte, head: seq<Byte>, flags: Byte)
    requires !r.inFragment && kind != MSG_FRAGMENT && |head| <= MAX_MESSAGE
    requires flags == FRAG_FIRST
    ensures Reassemble(r, [MSG_FRAGMENT, flags, kind] + head) ==
            (r.(inFragment := true, fragmentType := kind, fragment := head), More)
  {
    var plain := [MSG_FRAGMENT, flags, kind] + head;
    assert plain[2..] == [kind] + head && plain[2..][1..] == head;
  }

  lemma ReadLaterFragment(r: Reader, tail: seq<Byte>, flags: Byte)
    requires r.inFragment && flags < 2
    ensures Reassemble(r, [MSG_FRAGMENT, flags] + tail) ==
            Grown(r.(fragment := r.fragment + tail), flags)
  {
    assert ([MSG_FRAGMENT, flags] + tail)[2..] == tail;
  }

  /**
   What was written is what is read: the same type, the same body, nothing left in
   flight, and whatever came after it still to be read.
   */
  lemma ReadUndoesWrite(r: Reader, m: Message, rest: seq<Packet>)
    requires Idle(r) && m.kind != MSG_FRAGMENT && |m.body| <= MAX_MESSAGE
    requires r.inbox == SealAll(r.nonce, Frames(m)) + rest
    ensures Read(r) == (r.(nonce := r.nonce + |Frames(m)|, inbox := rest), Ok(m))
  {
    if |m.body| <= MAX_FRAME_BODY {
      var plain := [m.kind] + m.body;
      assert Frames(m)[1..] == [];
      assert r.inbox == [Packet(true, Sealed(r.nonce, plain))] + rest;
      assert plain[1..] == m.body;
    } else {
      var n := MAX_FRAME_BODY - 2;
      var a, b := [MSG_FRAGMENT, FRAG_FIRST, m.kind] + m.body[..n], [MSG_FRAGMENT, FRAG_LAST] + m.body[n..];
      TwoFragments(m);
      SealTwo(r.nonce, a, b);
      var pa, pb := Packet(true, Sealed(r.nonce, a)), Packet(true, Sealed(r.nonce + 1, b));
      assert r.inbox == [pa, pb] + rest;
      var t := r.(nonce := r.nonce + 1, inbox := [pb] + rest);
      assert r.inbox[1..] == t.inbox;
      ReadFirstFragment(t, m.kind, m.body[..n], FRAG_FIRST);
      var u := t.(inFragment := true, fragmentType := m.kind, fragment := m.body[..n]);
      assert ReadFrom(r, 0) == ReadFrom(u, 1);
      var v := u.(nonce := u.nonce + 1, inbox := rest);
      assert u.inbox[1..] == rest;
      ReadLaterFragment(v, m.body[n..], FRAG_LAST);
      assert m.body[..n] + m.body[n..] == m.body;
    }
  }

  lemma FragmentsOfTooMuch(m: Message)
    requires |m.body| > MAX_MESSAGE
    ensures var n, k := MAX_FRAME_BODY - 2, MAX_FRAME_BODY - 1;
      var rest := m.body[n..];
      var second := if k <= |rest| then k else |rest|;
      var flags: Byte := if second == |rest| then FRAG_LAST else 0;
      && |Frames(m)| >= 2 && second >= 20
      && Frames(m)[..2] == [[MSG_FRAGMENT, FRAG_FIRST, m.kind] + m.body[..n],
                            [MSG_FRAGMENT, flags] + rest[..second]]
  {
    var n, k := MAX_FRAME_BODY - 2, MAX_FRAME_BODY - 1;
    var rest := m.body[n..];
    var second := if k <= |rest| then k else |rest|;
    var flags: Byte := if second == |rest| then FRAG_LAST else 0;
    assert [MSG_FRAGMENT, FRAG_FIRST] + [m.kind] + m.body[..n] == [MSG_FRAGMENT, FRAG_FIRST, m.kind] + m.body[..n];
    assert [MSG_FRAGMENT, flags] + [] + rest[..second] == [MSG_FRAGMENT, flags] + rest[..second];
    var later := Fragments(m.kind, rest, false);
    assert later[0] == [MSG_FRAGMENT, flags] + rest[..second];
    assert Frames(m) == [[MSG_FRAGMENT, FRAG_FIRST, m.kind] + m.body[..n]] + later;
    assert Frames(m)[..2] == [Frames(m)[0], Frames(m)[1]];
  }

  lemma SealStartsWith(nonce: nat, frames: seq<seq<Byte>>)
    requires |frames| >= 2
    ensures var s := SealAll(nonce, frames);
      |s| >= 2 && s[..2] == SealAll(nonce, frames[..2])
  {
    SealTwo(nonce, frames[0], frames[1]);
    assert frames[..2] == [frames[0], frames[1]];
    assert frames[1..][0] == frames[1];
  }

  /** A longer body is refused, at its second fragment. */
  lemma ReadRefusesTooMuch(r: Reader, m: Message, rest: seq<Packet>)
    requires Idle(r) && m.kind != MSG_FRAGMENT && |m.body| > MAX_MESSAGE
    requires r.inbox == SealAll(r.nonce, Frames(m)) + rest
    ensures Read(r).1 == Err(TooBig)
  {
    var n, k := MAX_FRAME_BODY - 2, MAX_FRAME_BODY - 1;
    var later := m.body[n..];
    var second := if k <= |later| then k else |later|;
    var flags: Byte := if second == |later| then FRAG_LAST else 0;
    FragmentsOfTooMuch(m);
    SealStartsWith(r.nonce, Frames(m));
    var a, b := [MSG_FRAGMENT, FRAG_FIRST, m.kind] + m.body[..n], [MSG_FRAGMENT, flags] + later[..second];
    SealTwo(r.nonce, a, b);
    var all := SealAll(r.nonce, Frames(m));
    assert all[0] == all[..2][0] && all[1] == all[..2][1];
    assert r.inbox[0] == Packet(true, Sealed(r.nonce, a));
    assert r.inbox[1..][0] == r.inbox[1] == Packet(true, Sealed(r.nonce + 1, b));
    var t := r.(nonce := r.nonce + 1, inbox := r.inbox[1..]);
    ReadFirstFragment(t, m.kind, m.body[..n], FRAG_FIRST);
    var u := t.(inFragment := true, fragmentType := m.kind, fragment := m.body[..n]);
    assert ReadFrom(r, 0) == ReadFrom(u, 1);
    var v := u.(nonce := u.nonce + 1, inbox := u.inbox[1..]);
    ReadLaterFragment(v, later[..second], flags);
  }

  /** Whatever arrives, a message that is read is no fragment and leaves none in flight. */
  lemma {:induction false} ReadGivesWholeMessages(r: Reader, frames: nat)
    requires !r.inFragment || r.fragmentType != MSG_FRAGMENT
    ensures var (t, o) := ReadFrom(r, frames);
      && (o.Ok? ==> o.message.kind != MSG_FRAGMENT && !t.inFragment)
      && (!t.inFragment || t.fragmentType != MSG_FRAGMENT)
      && |t.inbox| <= |r.inbox| && |r.inbox| - |t.inbox| <= MAX_MESSAGE_FRAMES
    ensures frames <= MAX_MESSAGE_FRAMES ==>
              |r.inbox| - |ReadFrom(r, frames).0.inbox| <= MAX_MESSAGE_FRAMES - frames
    decreases MAX_MESSAGE_FRAMES + 1 - frames
  {
    if frames + 1 <= MAX_MESSAGE_FRAMES {
      TakeGivesWholeMessages(r);
      var (t, taken) := TakeFrame(r);
      hide TakeFrame;
      if taken == Again {
        ReadGivesWholeMessages(t, frames + 1);
      }
    }
  }

  lemma TakeGivesWholeMessages(r: Reader)
    requires !r.inFragment || r.fragmentType != MSG_FRAGMENT
    ensures var (t, taken) := TakeFrame(r);
      && (taken.Finished? && taken.outcome.Ok? ==>
            taken.outcome.message.kind != MSG_FRAGMENT && !t.inFragment)
      && (!t.inFragment || t.fragmentType != MSG_FRAGMENT)
      && |r.inbox| - 1 <= |t.inbox| <= |r.inbox|
  {
  }

  // ---------- any number of writers ----------

  function AllFrames(ms: seq<Message>): seq<seq<Byte>> {
    if ms == [] then [] else Frames(ms[0]) + AllFrames(ms[1..])
  }

  /** The order messages took the lock in, and the frames the holder has still to send. */
  datatype Writers = Writers(nonce: nat, wire: seq<Packet>, order: seq<Message>, left: seq<seq<Byte>>)

  const NOBODY := Writers(0, [], [], [])

  /** A writer takes the lock with a message, or the holder seals its next frame. */
  datatype Turn = Take(m: Message) | SealNext

  predicate CanTurn(w: Writers, t: Turn) {
    match t
    case Take(m) => w.left == [] && m.kind != MSG_FRAGMENT
    case SealNext => w.left != []
  }

  function TurnOf(w: Writers, t: Turn): Writers
    requires CanTurn(w, t)
  {
    match t
    case Take(m) => w.(order := w.order + [m], left := Frames(m))
    case SealNext =>
      w.(nonce := w.nonce + 1, wire := w.wire + [Packet(true, Sealed(w.nonce, w.left[0]))],
         left := w.left[1..])
  }

  predicate Legal(w: Writers, ts: seq<Turn>)
    decreases |ts|
  {
    ts == [] || (CanTurn(w, ts[0]) && Legal(TurnOf(w, ts[0]), ts[1..]))
  }

  function Turns(w: Writers, ts: seq<Turn>): Writers
    requires Legal(w, ts)
    decreases |ts|
  {
    if ts == [] then w else Turns(TurnOf(w, ts[0]), ts[1..])
  }

  lemma SealAppends(nonce: nat, a: seq<seq<Byte>>, b: seq<seq<Byte>>)
    ensures SealAll(nonce, a + b) == SealAll(nonce, a) + SealAll(nonce + |a|, b)
    decreases |a|
  {
    if a == [] {
      assert a + b == b;
    } else {
      assert (a + b)[1..] == a[1..] + b;
      SealAppends(nonce + 1, a[1..], b);
    }
  }

  lemma NothingIsNoFrames(kind: Byte, nonce: nat, first: bool)
    ensures Fragments(kind, [], first) == [] && SealAll(nonce, []) == []
  {
  }

  lemma AllFramesAppends(ms: seq<Message>, m: Message)
    ensures AllFrames(ms + [m]) == AllFrames(ms) + Frames(m)
  {
    if ms == [] {
      assert ms + [m] == [m] && [m][1..] == [];
      assert AllFrames([m]) == Frames(m) + [];
    } else {
      assert (ms + [m])[1..] == ms[1..] + [m];
      AllFramesAppends(ms[1..], m);
    }
  }

  /** The end of some frames. */
  predicate IsRest(left: seq<seq<Byte>>, frames: seq<seq<Byte>>) {
    |left| <= |frames| && left == frames[|frames| - |left|..]
  }

  /** What is on the wire and what the holder has left are the frames of the messages, in order. */
  predicate WireOk(w: Writers) {
    && w.nonce == |w.wire| && SealAll(0, AllFrames(w.order)) == w.wire + SealAll(w.nonce, w.left)
    && |AllFrames(w.order)| == |w.wire| + |w.left|
    && (w.left != [] ==> w.order != [] && IsRest(w.left, Frames(w.order[|w.order| - 1])))
    && forall i | 0 <= i < |w.order| :: w.order[i].kind != MSG_FRAGMENT
  }

  lemma TakingKeepsTheWire(w: Writers, m: Message)
    requires WireOk(w) && w.left == [] && m.kind != MSG_FRAGMENT
    ensures WireOk(TurnOf(w, Take(m)))
  {
    hide Frames, AllFrames;
    AllFramesAppends(w.order, m);
    SealAppends(0, AllFrames(w.order), Frames(m));
    assert w.wire + [] == w.wire;
  }

  lemma SealingKeepsTheWire(w: Writers)
    requires WireOk(w) && w.left != []
    ensures WireOk(TurnOf(w, SealNext))
  {
    hide Frames, AllFrames;
    var p := Packet(true, Sealed(w.nonce, w.left[0]));
    assert SealAll(w.nonce, w.left) == [p] + SealAll(w.nonce + 1, w.left[1..]);
    assert w.wire + ([p] + SealAll(w.nonce + 1, w.left[1..])) == w.wire + [p] + SealAll(w.nonce + 1, w.left[1..]);
  }

  lemma TurnKeepsTheWire(w: Writers, t: Turn)
    requires WireOk(w) && CanTurn(w, t)
    ensures WireOk(TurnOf(w, t))
  {
    match t
    case Take(m) => TakingKeepsTheWire(w, m);
    case SealNext => SealingKeepsTheWire(w);
  }

  lemma {:induction false} TurnsKeepTheWire(w: Writers, ts: seq<Turn>)
    requires WireOk(w) && Legal(w, ts)
    ensures WireOk(Turns(w, ts))
    decreases |ts|
  {
    if ts != [] {
      TurnKeepsTheWire(w, ts[0]);
      TurnsKeepTheWire(TurnOf(w, ts[0]), ts[1..]);
    }
  }

  /** Reading `n` messages one after another. */
  function ReadMany(r: Reader, n: nat): seq<Outcome>
    decreases n
  {
    if n == 0 then [] else [Read(r).1] + ReadMany(Read(r).0, n - 1)
  }

  lemma AllFramesOfOneLess(ms: seq<Message>)
    requires ms != []
    ensures AllFrames(ms) == AllFrames(ms[..|ms| - 1]) + Frames(ms[|ms| - 1])
  {
    hide AllFrames, Frames;
    AllFramesAppends(ms[..|ms| - 1], ms[|ms| - 1]);
    assert ms == ms[..|ms| - 1] + [ms[|ms| - 1]];
  }

  lemma {:induction false} SealLength(nonce: nat, frames: seq<seq<Byte>>)
    ensures |SealAll(nonce, frames)| == |frames|
    decreases |frames|
  {
    if frames != [] {
      SealLength(nonce + 1, frames[1..]);
    }
  }

  /** The wire is the messages already complete, and as much of the last as was sealed. */
  lemma TheWireIsWhatWasSealed(w: Writers) returns (whole: seq<Message>, cut: seq<seq<Byte>>)
    requires WireOk(w)
    ensures whole == if w.left == [] then w.order else w.order[..|w.order| - 1]
    ensures w.wire == SealAll(0, AllFrames(whole)) + SealAll(|AllFrames(whole)|, cut)
    ensures if w.left == [] then cut == []
            else var frames := Frames(w.order[|w.order| - 1]); |cut| < |frames| && cut == frames[..|cut|]
  {
    hide Frames;
    if w.left == [] {
      whole, cut := w.order, [];
      assert SealAll(w.nonce, []) == [] && SealAll(|AllFrames(whole)|, []) == [];
      assert w.wire + [] == w.wire && SealAll(0, AllFrames(whole)) + [] == SealAll(0, AllFrames(whole));
    } else {
      var frames := Frames(w.order[|w.order| - 1]);
      whole, cut := w.order[..|w.order| - 1], frames[..|frames| - |w.left|];
      AllFramesOfOneLess(w.order);
      var before := AllFrames(whole);
      assert frames == cut + w.left;
      assert AllFrames(w.order) == (before + cut) + w.left;
      SealAppends(0, before + cut, w.left);
      SealAppends(0, before, cut);
      SealLength(0, before + cut);
      assert |before + cut| == w.nonce;
      assert w.wire == (w.wire + SealAll(w.nonce, w.left))[..w.nonce];
      assert SealAll(0, before + cut) == (SealAll(0, before + cut) + SealAll(w.nonce, w.left))[..w.nonce];
    }
  }

  /** A message cut short leaves the reader waiting for the rest until the socket closes. */
  lemma ACutMessageIsNotRead(r: Reader, m: Message, cut: seq<seq<Byte>>)
    requires Idle(r) && m.kind != MSG_FRAGMENT && |m.body| <= MAX_MESSAGE
    requires |cut| < |Frames(m)| && cut == Frames(m)[..|cut|] && r.inbox == SealAll(r.nonce, cut)
    ensures Read(r).1 == Err(SocketClosed)
  {
    if cut != [] {
      var n := MAX_FRAME_BODY - 2;
      TwoFragments(m);
      var a := [MSG_FRAGMENT, FRAG_FIRST, m.kind] + m.body[..n];
      assert cut == [a] && cut[1..] == [];
      assert r.inbox == [Packet(true, Sealed(r.nonce, a))];
      var t := r.(nonce := r.nonce + 1, inbox := []);
      ReadFirstFragment(t, m.kind, m.body[..n], FRAG_FIRST);
      var u := t.(inFragment := true, fragmentType := m.kind, fragment := m.body[..n]);
      assert ReadFrom(r, 0) == ReadFrom(u, 1);
    }
  }

  /** The reader after some messages, and what it reads next. */
  lemma {:induction false} ReadManyAndOne(r: Reader, ms: seq<Message>, rest: seq<Packet>) returns (after: Reader)
    requires Idle(r) && r.inbox == SealAll(r.nonce, AllFrames(ms)) + rest
    requires forall i | 0 <= i < |ms| :: ms[i].kind != MSG_FRAGMENT && |ms[i].body| <= MAX_MESSAGE
    ensures Idle(after) && after.nonce == r.nonce + |AllFrames(ms)| && after.inbox == rest
    ensures ReadMany(r, |ms| + 1) == seq(|ms|, i requires 0 <= i < |ms| => Ok(ms[i])) + [Read(after).1]
    decreases |ms|
  {
    hide Read, Frames;
    if ms == [] {
      after := r;
      assert SealAll(r.nonce, []) + rest == rest;
      assert ReadMany(r, 1) == [Read(r).1] + ReadMany(Read(r).0, 0);
      assert [] + [Read(r).1] == [Read(r).1];
    } else {
      SealAppends(r.nonce, Frames(ms[0]), AllFrames(ms[1..]));
      var later := SealAll(r.nonce + |Frames(ms[0])|, AllFrames(ms[1..])) + rest;
      assert r.inbox == SealAll(r.nonce, Frames(ms[0])) + later;
      ReadUndoesWrite(r, ms[0], later);
      var t := r.(nonce := r.nonce + |Frames(ms[0])|, inbox := later);
      after := ReadManyAndOne(t, ms[1..], rest);
      assert ReadMany(r, |ms| + 1) == [Ok(ms[0])] + ReadMany(t, |ms|);
    }
  }

  /**
   Any number of writers, taking the lock in any order, wherever they have got to: a
   reader of the wire gets every message already complete, whole and in the order
   they took it, and of one cut short, or of none, that the socket closed.
   */
  lemma EveryMessageArrives(ts: seq<Turn>)
    requires Legal(NOBODY, ts)
    requires forall i | 0 <= i < |Turns(NOBODY, ts).order| ::
               |Turns(NOBODY, ts).order[i].body| <= MAX_MESSAGE
    ensures var w := Turns(NOBODY, ts);
      var n := if w.left == [] then |w.order| else |w.order| - 1;
      n >= 0 &&
      ReadMany(NEW_READER.(inbox := w.wire), n + 1)
      == seq(n, i requires 0 <= i < n => Ok(w.order[i])) + [Err(SocketClosed)]
  {
    TurnsKeepTheWire(NOBODY, ts);
    TheWireIsRead(Turns(NOBODY, ts));
  }

  lemma TheWireIsRead(w: Writers)
    requires WireOk(w) && forall i | 0 <= i < |w.order| :: |w.order[i].body| <= MAX_MESSAGE
    ensures var n := if w.left == [] then |w.order| else |w.order| - 1;
      n >= 0 &&
      ReadMany(NEW_READER.(inbox := w.wire), n + 1)
      == seq(n, i requires 0 <= i < n => Ok(w.order[i])) + [Err(SocketClosed)]
  {
    hide Frames, AllFrames, Read, ReadMany, SealAll, IsRest;
    var whole, cut := TheWireIsWhatWasSealed(w);
    assert forall i | 0 <= i < |whole| :: whole[i] == w.order[i];
    var after := ReadManyAndOne(NEW_READER.(inbox := w.wire), whole, SealAll(|AllFrames(whole)|, cut));
    if w.left == [] {
      NothingIsRead(after, cut);
    } else {
      ACutMessageIsNotRead(after, w.order[|w.order| - 1], cut);
    }
    assert seq(|whole|, i requires 0 <= i < |whole| => Ok(whole[i])) ==
           seq(|whole|, i requires 0 <= i < |whole| => Ok(w.order[i]));
  }

  lemma NothingIsRead(r: Reader, cut: seq<seq<Byte>>)
    requires cut == [] && r.inbox == SealAll(r.nonce, cut)
    ensures Read(r).1 == Err(SocketClosed)
  {
  }
}
