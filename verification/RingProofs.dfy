/**
 The ring stays in step with a queue another thread drains
 (internal/audio/audio_android.c:92-150).
 */
module RingProofs {
  import opened RingModel
  import GoInt
  import opened Wrappers

  /** The slot after the newest buffer. */
  function NextSlot(r: Ring): nat {
    if r.at.Queued? then (r.slot + 1) % NUM_BUFFERS else r.slot
  }

  /** The bytes the player has still to play. */
  function Contents(pool: seq<seq<Byte>>, queue: seq<Buffer>): seq<Byte>
    requires forall i | 0 <= i < |queue| :: queue[i].index < |pool| && queue[i].size <= |pool[queue[i].index]|
  {
    if queue == [] then []
    else pool[queue[0].index][..queue[0].size] + Contents(pool, queue[1..])
  }

  /** And the frames. */
  function Frames(queue: seq<Buffer>, frameBytes: nat): nat
    requires frameBytes > 0
  {
    if queue == [] then 0 else queue[0].size / frameBytes + Frames(queue[1..], frameBytes)
  }

  /** The slot `back` before another. */
  function SlotBefore(slot: nat, back: nat): nat
    requires slot < NUM_BUFFERS && back <= NUM_BUFFERS
  {
    (slot + NUM_BUFFERS - back) % NUM_BUFFERS
  }

  /** The queued buffers are the slots just before the next one, oldest first. */
  predicate InSlots(r: Ring)
    requires Sized(r)
  {
    && |r.queue| <= NUM_BUFFERS
    && forall i | 0 <= i < |r.queue| :: r.queue[i].index == SlotBefore(NextSlot(r), |r.queue| - i)
  }

  /** What is held of a queued buffer is its size; that of one just queued is still to be kept. */
  predicate HeldOk(r: Ring)
    requires Sized(r)
  {
    forall i | 0 <= i < |r.queue| ::
      && r.queue[i].size % r.frameBytes == 0
      && if r.at.Queued? && i == |r.queue| - 1 then r.queue[i].size == |r.at.pcm|
         else r.held[r.queue[i].index] == r.queue[i].size / r.frameBytes
  }

  predicate AtOk(r: Ring)
    requires Sized(r)
  {
    && (r.at != Idle ==> r.open)
    && (r.at.Asked? || r.at.Copied? ==> |r.queue| < NUM_BUFFERS)
    && (r.at.Copied? ==> r.at.pcm == r.pool[r.slot][..|r.at.pcm|])
    && (r.at.Copied? || r.at.Queued? ==> |r.at.pcm| % r.frameBytes == 0)
    && (!r.open ==> r.queue == [])
  }

  ghost predicate Valid(r: Ring) {
    && Sized(r) && InSlots(r) && HeldOk(r) && AtOk(r)
    && r.taken == r.played + Contents(r.pool, r.queue)
  }

  lemma SizedWhenValid(r: Ring)
    requires Valid(r)
    ensures Sized(r)
  {
  }

  lemma {:induction false} ContentsUnderCopy(pool: seq<seq<Byte>>, queue: seq<Buffer>, slot: nat, data: seq<Byte>)
    requires slot < |pool| && |data| == |pool[slot]|
    requires forall i | 0 <= i < |queue| ::
               queue[i].index < |pool| && queue[i].size <= |pool[queue[i].index]| && queue[i].index != slot
    ensures Contents(pool[slot := data], queue) == Contents(pool, queue)
    decreases |queue|
  {
    if queue != [] {
      ContentsUnderCopy(pool, queue[1..], slot, data);
    }
  }

  lemma {:induction false} ContentsMore(pool: seq<seq<Byte>>, queue: seq<Buffer>, b: Buffer)
    requires forall i | 0 <= i < |queue| :: queue[i].index < |pool| && queue[i].size <= |pool[queue[i].index]|
    requires b.index < |pool| && b.size <= |pool[b.index]|
    ensures Contents(pool, queue + [b]) == Contents(pool, queue) + pool[b.index][..b.size]
    decreases |queue|
  {
    if queue == [] {
      assert queue + [b] == [b] && [b][1..] == [];
    } else {
      assert (queue + [b])[1..] == queue[1..] + [b];
      ContentsMore(pool, queue[1..], b);
    }
  }

  /** While a slot can be written to, no queued buffer is in it. */
  lemma TheSlotIsFree(r: Ring)
    requires Valid(r) && |r.queue| < NUM_BUFFERS && !r.at.Queued?
    ensures forall i | 0 <= i < |r.queue| :: r.queue[i].index != r.slot
  {
    hide Contents;
  }

  lemma AskKeepsValid(r: Ring, pcm: seq<Byte>, answers: bool)
    requires Valid(r) && r.at == Idle
    ensures Valid(Ask(r, pcm, answers).0)
  {
    hide Contents, Whole;
  }

  /** The copy touches no buffer the player has. */
  lemma CopyTouchesNoQueuedBuffer(r: Ring)
    requires Valid(r) && r.at.Asked?
    ensures Valid(Copy(r))
    ensures forall i | 0 <= i < |r.queue| :: Copy(r).pool[r.queue[i].index] == r.pool[r.queue[i].index]
    ensures Contents(Copy(r).pool, r.queue) == Contents(r.pool, r.queue)
  {
    hide Contents;
    TheSlotIsFree(r);
    var n := Whole(|r.at.pcm|, r.frameBytes);
    var data := r.at.pcm[..n];
    ContentsUnderCopy(r.pool, r.queue, r.slot, data + r.pool[r.slot][n..]);
    WholeIsFrames(|r.at.pcm|, r.frameBytes);
    hide Whole;
    assert (data + r.pool[r.slot][n..])[..n] == data;
  }

  lemma WholeIsFrames(len: nat, frameBytes: nat)
    requires frameBytes > 0
    ensures Whole(len, frameBytes) % frameBytes == 0
    ensures Whole(len, frameBytes) == 0 <==> len < frameBytes || frameBytes > CHUNK
  {
    WholesLeaveNothing(if len > CHUNK then CHUNK else len, frameBytes);
  }

  lemma WholesLeaveNothing(n: nat, m: nat)
    requires m > 0
    ensures (n - n % m) % m == 0
    ensures n - n % m == 0 <==> n < m
  {
    var q := n / m;
    assert n - n % m == m * q;
    GoInt.DivIsUnique(m * q, m, q);
    if n < m {
      GoInt.DivIsUnique(n, m, 0);
    }
  }

  lemma OneSlotOn(slot: nat, back: nat)
    requires slot < NUM_BUFFERS && back < NUM_BUFFERS
    ensures SlotBefore((slot + 1) % NUM_BUFFERS, back + 1) == SlotBefore(slot, back) && SlotBefore(slot, 0) == slot
  {
  }

  lemma EnqueueKeepsSlots(r: Ring, takes: bool)
    requires Valid(r) && r.at.Copied?
    ensures var t := Enqueue(r, takes).0; Sized(t) && InSlots(t)
  {
    hide Contents, Whole, HeldOk, SlotBefore;
    var t := Enqueue(r, takes).0;
    if takes {
      forall i | 0 <= i <= |r.queue|
        ensures t.queue[i].index == SlotBefore(NextSlot(t), |t.queue| - i)
      {
        OneSlotOn(r.slot, |r.queue| - i);
        assert i < |r.queue| ==> t.queue[i] == r.queue[i];
      }
    }
  }

  lemma EnqueueKeepsHeld(r: Ring, takes: bool)
    requires Valid(r) && r.at.Copied?
    ensures var t := Enqueue(r, takes).0; Sized(t) && HeldOk(t) && AtOk(t)
  {
    hide Contents, Whole, InSlots;
    var t := Enqueue(r, takes).0;
    if takes {
      assert forall i | 0 <= i < |r.queue| :: t.queue[i] == r.queue[i];
    }
  }

  lemma EnqueueKeepsValid(r: Ring, takes: bool)
    requires Valid(r) && r.at.Copied?
    ensures Valid(Enqueue(r, takes).0)
  {
    hide Contents, InSlots, HeldOk, SlotBefore;
    EnqueueKeepsSlots(r, takes);
    EnqueueKeepsHeld(r, takes);
    ContentsMore(r.pool, r.queue, Buffer(r.slot, |r.at.pcm|));
    assert r.played + Contents(r.pool, r.queue) + r.at.pcm == r.played + (Contents(r.pool, r.queue) + r.at.pcm);
  }

  lemma KeepKeepsValid(r: Ring)
    requires Valid(r) && r.at.Queued?
    ensures Valid(Keep(r).0)
  {
    hide Contents;
  }

  lemma DrainKeepsValid(r: Ring)
    requires Valid(r) && r.queue != []
    ensures Valid(Drain(r))
  {
    hide Whole;
    var b := r.queue[0];
    assert r.played + (r.pool[b.index][..b.size] + Contents(r.pool, r.queue[1..])) ==
           r.played + r.pool[b.index][..b.size] + Contents(r.pool, r.queue[1..]);
  }

  lemma OpenKeepsValid(r: Ring, rate: int, channels: int, works: bool)
    requires Valid(r) && r.at == Idle && !r.open
    ensures Valid(Open(r, rate, channels, works).0)
  {
  }

  /** Whatever the player does meanwhile, every step keeps the ring in step with its queue. */
  lemma StepKeepsValid(r: Ring, e: Event)
    requires Valid(r) && Enabled(r, e)
    ensures Valid(Step(r, e))
  {
    hide Valid, Ask, Copy, Enqueue, Keep, Drain, Open;
    match e
    case Opens(rate, channels, works) => OpenKeepsValid(r, rate, channels, works);
    case Closes => CloseKeepsValid(r);
    case Asks(pcm, answers) => AskKeepsValid(r, pcm, answers);
    case Copies => CopyTouchesNoQueuedBuffer(r);
    case Enqueues(takes) => EnqueueKeepsValid(r, takes);
    case Keeps => KeepKeepsValid(r);
    case Drains => DrainKeepsValid(r);
  }

  lemma CloseKeepsValid(r: Ring)
    requires Valid(r) && r.at == Idle
    ensures Valid(Close(r))
  {
  }

  lemma {:induction false} HeldIsFrames(r: Ring, back: nat)
    requires Valid(r) && !r.at.Queued? && back <= |r.queue|
    ensures HeldBefore(r.held, r.slot, back) == Frames(r.queue[|r.queue| - back..], r.frameBytes)
  {
    hide Contents;
    if back > 0 {
      HeldIsFrames(r, back - 1);
      var i := |r.queue| - back;
      assert r.queue[i..][1..] == r.queue[i + 1..];
    }
  }

  lemma Distributes(m: nat, a: nat, b: nat)
    ensures m * (a + b) == m * a + m * b
  {
  }

  lemma Undivides(n: nat, m: nat)
    requires m > 0 && n % m == 0
    ensures m * (n / m) == n
  {
  }

  lemma {:induction false} ContentsAreFrames(pool: seq<seq<Byte>>, queue: seq<Buffer>, frameBytes: nat)
    requires frameBytes > 0
    requires forall i | 0 <= i < |queue| ::
               queue[i].index < |pool| && queue[i].size <= |pool[queue[i].index]| && queue[i].size % frameBytes == 0
    ensures |Contents(pool, queue)| == frameBytes * Frames(queue, frameBytes)
    decreases |queue|
  {
    if queue != [] {
      ContentsAreFrames(pool, queue[1..], frameBytes);
      Distributes(frameBytes, queue[0].size / frameBytes, Frames(queue[1..], frameBytes));
      Undivides(queue[0].size, frameBytes);
    }
  }

  /** What is reported is exactly the frames the player took and has not consumed. */
  lemma PendingIsWhatIsLeft(r: Ring)
    requires Valid(r) && r.at == Idle && r.open
    ensures Pending(r, true) * r.frameBytes == |r.taken| - |r.played|
    ensures r.played <= r.taken
  {
    HeldIsFrames(r, |r.queue|);
    assert r.queue[0..] == r.queue;
    ContentsAreFrames(r.pool, r.queue, r.frameBytes);
  }

  lemma {:induction false} RunKeepsValid(r: Ring, events: seq<Event>)
    requires Valid(r) && Legal(r, events)
    ensures Valid(Run(r, events))
    decreases |events|
  {
    hide Step, Enabled;
    if events != [] {
      StepKeepsValid(r, events[0]);
      hide Valid;
      RunKeepsValid(Step(r, events[0]), events[1..]);
    }
  }

  /**
   In every run, however the player drains its queue: the queued buffers are the
   slots just before the next, what was taken is what was played and what is
   queued, in order and unaltered, and between calls the frames reported are
   those the player has not consumed.
   */
  lemma EveryRunStaysInStep(events: seq<Event>)
    requires Legal(UNOPENED, events)
    ensures var r := Run(UNOPENED, events);
      && Sized(r) && InSlots(r) && r.taken == r.played + Contents(r.pool, r.queue)
      && (r.at == Idle && r.open ==> Pending(r, true) * r.frameBytes == |r.taken| - |r.played|)
  {
    RunKeepsValid(UNOPENED, events);
    var r := Run(UNOPENED, events);
    hide Run, Legal, Contents, HeldBefore;
    if r.at == Idle && r.open {
      PendingIsWhatIsLeft(r);
    }
  }

  // ---------- one call, and a whole block ----------

  lemma {:induction false} DrainedKeepsValid(r: Ring, k: nat)
    requires Valid(r)
    ensures var d := Drained(r, k);
      && Valid(d) && d.taken == r.taken && d.open == r.open && d.frameBytes == r.frameBytes
      && d.pool == r.pool && d.slot == r.slot && r.played <= d.played
    decreases k
  {
    if k > 0 && r.queue != [] {
      DrainKeepsValid(r);
      hide Valid;
      DrainedKeepsValid(Drain(r), k - 1);
    }
  }

  lemma DrainedAtKeepsValid(r: Ring, luck: Luck, i: nat)
    requires Valid(r)
    ensures var d := DrainedAt(r, luck, i);
      && Valid(d) && d.taken == r.taken && d.open == r.open && d.frameBytes == r.frameBytes
      && d.pool == r.pool && d.slot == r.slot && r.played <= d.played
  {
    hide Valid;
    if i < |luck.drains| {
      DrainedKeepsValid(r, luck.drains[i]);
    }
  }

  /** A call takes the most whole frames that fit one buffer, or nothing at all and says which. */
  lemma WriteTakesOrRefuses(r: Quiet, pcm: seq<Byte>, luck: Luck)
    requires Valid(r)
    ensures var (t, n) := Write(r, pcm, luck);
      && Valid(t) && t.open == r.open && r.played <= t.played
      && (n > 0 ==> n == Whole(|pcm|, r.frameBytes) && t.taken == r.taken + pcm[..n])
      && (n <= 0 ==> t.taken == r.taken)
      && (n < 0 ==> n == -1)
      && (n < 0 ==> !r.open || !luck.answers || !luck.takes || Whole(|pcm|, r.frameBytes) == 0)
  {
    hide Valid, DrainedAt, Whole;
    var r0 := DrainedAt(r, luck, 0);
    DrainedAtKeepsValid(r, luck, 0);
    AskKeepsValid(r0, pcm, luck.answers);
    var (a, answer) := Ask(r0, pcm, luck.answers);
    if answer.None? {
      var a1 := DrainedAt(a, luck, 1);
      DrainedAtKeepsValid(a, luck, 1);
      CopyTouchesNoQueuedBuffer(a1);
      var c := DrainedAt(Copy(a1), luck, 2);
      DrainedAtKeepsValid(Copy(a1), luck, 2);
      EnqueueKeepsValid(c, luck.takes);
      var (b, refusal) := Enqueue(c, luck.takes);
      if refusal.None? {
        DrainedAtKeepsValid(b, luck, 3);
        KeepKeepsValid(DrainedAt(b, luck, 3));
      }
    }
  }

  /** Whatever the player, it took the front of the block in order, and the loop is done only if that is all of it. */
  lemma {:induction false} DoneWhenAllWasTaken<S>(
      s: S, buf: seq<Byte>, refused: nat, calls: nat,
      write: (S, seq<Byte>, nat) -> (S, Option<int>), waits: nat -> bool)
    requires refused <= STUCK_WAITS
    ensures var (_, took, outcome) := WriteAll(s, buf, refused, calls, write, waits);
      && took <= buf && (outcome == Done <==> took == buf)
      && (outcome.Stuck? ==> outcome.refused == STUCK_WAITS + 1)
    decreases |buf|, STUCK_WAITS - refused
  {
    if buf != [] {
      var (t, n) := write(s, buf, calls);
      if n.Some? && 0 <= n.value <= |buf| {
        if n.value == 0 {
          if refused + 1 <= STUCK_WAITS && waits(calls) {
            DoneWhenAllWasTaken(t, buf, refused + 1, calls + 1, write, waits);
          }
        } else {
          DoneWhenAllWasTaken(t, buf[n.value..], 0, calls + 1, write, waits);
          var took := WriteAll(t, buf[n.value..], 0, calls + 1, write, waits).1;
          assert buf == buf[..n.value] + buf[n.value..];
          assert buf[..n.value] + took == buf ==> took == buf[n.value..] by {
            assert (buf[..n.value] + took)[n.value..] == took;
          }
        }
      }
    }
  }

  lemma {:induction false} TheRingTakesAlong(
      r: Quiet, buf: seq<Byte>, refused: nat, calls: nat, luck: nat -> Luck, waits: nat -> bool)
    requires refused <= STUCK_WAITS && Valid(r)
    ensures var (t, took, outcome) := WriteAll(r, buf, refused, calls, WriteChunk(luck), waits);
      Valid(t) && t.taken == r.taken + took && r.played <= t.played && !outcome.BadCount?
    decreases |buf|, STUCK_WAITS - refused
  {
    hide Valid, Write, Whole, Sized;
    assert r.taken + [] == r.taken;
    if buf != [] {
      var (t, n) := Write(r, buf, luck(calls));
      WriteTakesOrRefuses(r, buf, luck(calls));
      assert n <= |buf|;
      assert WriteChunk(luck)(r, buf, calls) == (t, if n < 0 then None else Some(n));
      if n > 0 {
        TheRingTakesAlong(t, buf[n..], 0, calls + 1, luck, waits);
        var took := WriteAll(t, buf[n..], 0, calls + 1, WriteChunk(luck), waits).1;
        assert r.taken + buf[..n] + took == r.taken + (buf[..n] + took);
      } else if n == 0 && refused + 1 <= STUCK_WAITS && waits(calls) {
        TheRingTakesAlong(t, buf, refused + 1, calls + 1, luck, waits);
      }
    }
  }

  /** Over the ring, what the loop says was taken is what the player has taken. */
  lemma TheRingTakesTheBlock(
      r: Quiet, buf: seq<Byte>, refused: nat, calls: nat, luck: nat -> Luck, waits: nat -> bool)
    requires refused <= STUCK_WAITS && Valid(r)
    ensures var (t, took, outcome) := WriteAll(r, buf, refused, calls, WriteChunk(luck), waits);
      && Valid(t) && t.taken == r.taken + took && r.played <= t.played && !outcome.BadCount?
      && (outcome == Done ==> t.taken == r.taken + buf)
  {
    hide Valid, WriteAll, WriteChunk;
    TheRingTakesAlong(r, buf, refused, calls, luck, waits);
    DoneWhenAllWasTaken(r, buf, refused, calls, WriteChunk(luck), waits);
  }

  /** The loop of `writeAll` with `took` already taken and the rest of it to come. */
  predicate Remains(
      all: (Quiet, seq<Byte>, Outcome), took: seq<Byte>, r: Quiet, left: seq<Byte>, refused: nat, calls: nat,
      luck: nat -> Luck, waits: nat -> bool)
    requires refused <= STUCK_WAITS
  {
    var rest := WriteAll<Quiet>(r, left, refused, calls, WriteChunk(luck), waits);
    all == (rest.0, took + rest.1, rest.2)
  }

  lemma RemainsAtTheEnd(
      all: (Quiet, seq<Byte>, Outcome), took: seq<Byte>, r: Quiet, refused: nat, calls: nat,
      luck: nat -> Luck, waits: nat -> bool)
    requires refused <= STUCK_WAITS
    requires Remains(all, took, r, [], refused, calls, luck, waits)
    ensures all == (r, took, Done)
  {
    assert took + [] == took;
  }

  /** One turn of that loop. */
  lemma RemainsAfterACall(
      all: (Quiet, seq<Byte>, Outcome), took: seq<Byte>, r: Quiet, left: seq<Byte>, refused: nat, calls: nat,
      luck: nat -> Luck, waits: nat -> bool)
    requires refused <= STUCK_WAITS && left != []
    requires Remains(all, took, r, left, refused, calls, luck, waits)
    ensures var (t, n) := Write(r, left, luck(calls));
      if n < 0 then all == (t, took, Failed)
      else if n > |left| then all == (t, took, BadCount(n, |left|))
      else if n > 0 then Remains(all, took + left[..n], t, left[n..], 0, calls + 1, luck, waits)
      else if refused + 1 > STUCK_WAITS then all == (t, took, Stuck(refused + 1))
      else if !waits(calls) then all == (t, took, Stopping)
      else Remains(all, took, t, left, refused + 1, calls + 1, luck, waits)
  {
    hide Write;
    var (t, n) := Write(r, left, luck(calls));
    assert WriteChunk(luck)(r, left, calls) == (t, if n < 0 then None else Some(n));
    assert took + [] == took;
    if 0 < n <= |left| {
      var more := WriteAll<Quiet>(t, left[n..], 0, calls + 1, WriteChunk(luck), waits).1;
      assert took + (left[..n] + more) == took + left[..n] + more;
    }
  }
}
