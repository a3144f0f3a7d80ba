/** The pool, its sizes and the player's queue (internal/audio/audio_android.c; internal/audio/mixer.go:140-165). */
module RingClass {
  import Model = RingModel
  import Proofs = RingProofs
  import opened RingModel
  import opened Wrappers

  class Ring {
    var frameBytes: nat
    var pool: array<seq<Byte>>
    var held: array<int>
    var slot: nat
    var open: bool

    /** The player's side. */
    var queue: seq<Buffer>
    ghost var at: At
    ghost var taken: seq<Byte>
    var played: seq<Byte>

    ghost function Abs(): Model.Ring
      reads this, pool, held
    {
      Model.Ring(frameBytes, pool[..], held[..], slot, open, queue, at, taken, played)
    }

    ghost predicate Valid()
      reads this, pool, held
    {
      Proofs.Valid(Abs())
    }

    constructor ()
      ensures Valid() && Abs() == UNOPENED && fresh(pool) && fresh(held)
    {
      frameBytes, slot, open := 2, 0, false;
      pool := new seq<Byte>[NUM_BUFFERS](i requires 0 <= i < NUM_BUFFERS => SILENCE[i]);
      held := new int[NUM_BUFFERS](_ => 0);
      queue, at, taken, played := [], Idle, [], [];
      new;
      assert pool[..] == SILENCE && held[..] == NO_HELD;
    }

    method ClearHeld()
      requires held.Length == NUM_BUFFERS
      modifies held
      ensures held[..] == NO_HELD
    {
      for i := 0 to NUM_BUFFERS
        invariant forall k | 0 <= k < i :: held[k] == 0
      {
        held[i] := 0;
      }
    }

    method Close()
      requires Valid() && at == Idle
      modifies this, held
      ensures Valid() && pool == old(pool) && held == old(held)
      ensures Abs() == Model.Close(old(Abs()))
    {
      Proofs.CloseKeepsValid(Abs());
      hide Proofs.Valid;
      assert Sized(Abs());
      open := false;
      queue, taken, played := [], [], [];
      slot := 0;
      ClearHeld();
    }

    method Open(rate: int, channels: int, works: bool) returns (status: int)
      requires Valid() && at == Idle && !open
      modifies this, held
      ensures Valid() && pool == old(pool) && held == old(held)
      ensures (Abs(), status) == Model.Open(old(Abs()), rate, channels, works)
    {
      Proofs.OpenKeepsValid(Abs(), rate, channels, works);
      hide Proofs.Contents;
      if rate !in RATES || channels < 1 || channels > 2 { return -1; }
      frameBytes := channels * 2;
      slot := 0;
      ClearHeld();
      if !works {
        queue, taken, played := [], [], [];
        return -1;
      }
      open := true;
      return 0;
    }

    /** The player plays some of what it has. */
    method Play(k: nat)
      requires Valid()
      modifies `queue, `played
      ensures Valid() && Abs() == Drained(old(Abs()), k)
    {
      var left := k;
      Proofs.DrainedKeepsValid(Abs(), k);
      while left > 0 && queue != []
        invariant Sized(Abs()) && Drained(Abs(), left) == Drained(old(Abs()), k)
        invariant pool == old(pool) && held == old(held)
      {
        ghost var was := Abs();
        var b := queue[0];
        queue := queue[1..];
        played := played + pool[b.index][..b.size];
        left := left - 1;
        assert Abs() == Drain(was);
      }
    }

    method PlayAt(luck: Luck, i: nat)
      requires Valid()
      modifies `queue, `played
      ensures Valid() && Abs() == DrainedAt(old(Abs()), luck, i)
    {
      if i < |luck.drains| {
        Play(luck.drains[i]);
      }
    }

    // ---------- the steps of audio_write ----------

    method Ask(pcm: seq<Byte>, answers: bool) returns (answer: Option<int>, n: nat)
      requires Valid() && at == Idle
      modifies `at
      ensures Valid() && (Abs(), answer) == Model.Ask(old(Abs()), pcm, answers)
      ensures at == if answer.None? then Asked(pcm) else Idle
      ensures answer.None? ==> n == Whole(|pcm|, frameBytes)
    {
      Proofs.AskKeepsValid(Abs(), pcm, answers);
      hide Proofs.InSlots, Proofs.HeldOk, Proofs.AtOk, Proofs.Contents;
      n := 0;
      if !open { return Some(-1), 0; }
      if !answers { return Some(-1), 0; }
      if |queue| >= NUM_BUFFERS { return Some(0), 0; }
      n := if |pcm| > CHUNK then CHUNK else |pcm|;
      n := n - n % frameBytes;
      if n == 0 { return Some(-1), 0; }
      at := Asked(pcm);
      return None, n;
    }

    method Copy(pcm: seq<Byte>, n: nat)
      requires Valid() && at == Asked(pcm) && n == Whole(|pcm|, frameBytes)
      modifies `at, pool
      ensures Valid() && Abs() == Model.Copy(old(Abs())) && at == Copied(pcm[..n])
    {
      Proofs.CopyTouchesNoQueuedBuffer(Abs());
      hide Proofs.InSlots, Proofs.HeldOk, Proofs.AtOk, Proofs.Contents, Whole;
      pool[slot] := pcm[..n] + pool[slot][n..];
      at := Copied(pcm[..n]);
      assert Abs().pool == Model.Copy(old(Abs())).pool;
    }

    method Enqueue(n: nat, takes: bool) returns (refusal: Option<int>)
      requires Valid() && at.Copied? && n == |at.pcm|
      modifies `at, `queue, `taken
      ensures Valid() && (Abs(), refusal) == Model.Enqueue(old(Abs()), takes)
      ensures at == if refusal.None? then Queued(old(at).pcm) else Idle
    {
      Proofs.EnqueueKeepsValid(Abs(), takes);
      hide Proofs.InSlots, Proofs.HeldOk, Proofs.AtOk, Proofs.Contents;
      if !takes {
        at := Idle;
        return Some(-1);
      }
      queue := queue + [Buffer(slot, n)];
      taken := taken + at.pcm;
      at := Queued(at.pcm);
      return None;
    }

    method Keep(n: nat)
      requires Valid() && at.Queued? && n == |at.pcm|
      modifies `at, `slot, held
      ensures Valid() && (Abs(), n) == Model.Keep(old(Abs())) && at == Idle
    {
      Proofs.KeepKeepsValid(Abs());
      hide Proofs.InSlots, Proofs.HeldOk, Proofs.AtOk, Proofs.Contents;
      held[slot] := n / frameBytes;
      slot := (slot + 1) % NUM_BUFFERS;
      at := Idle;
      assert Abs().held == Model.Keep(old(Abs())).0.held;
    }

    /** `audio_write`: a buffer's worth of whole frames, zero when the queue is full, or an error. */
    method Write(pcm: seq<Byte>, luck: Luck) returns (n: int)
      requires Valid() && at == Idle
      modifies this, pool, held
      ensures Valid() && pool == old(pool) && held == old(held)
      ensures at == Idle && (Abs(), n) == Model.Write(old(Abs()), pcm, luck)
    {
      hide Proofs.Valid, Model.Ask, Model.Copy, Model.Enqueue, Model.Keep, DrainedAt;
      assert Sized(Abs()) by { Proofs.SizedWhenValid(Abs()); }
      PlayAt(luck, 0);
      var answer, size := Ask(pcm, luck.answers);
      if answer.Some? { return answer.value; }
      PlayAt(luck, 1);
      Copy(pcm, size);
      PlayAt(luck, 2);
      var refusal := Enqueue(size, luck.takes);
      if refusal.Some? { return refusal.value; }
      PlayAt(luck, 3);
      Keep(size);
      return size;
    }

    /** `audio_pending`. */
    method Pending(answers: bool) returns (frames: int)
      requires Valid() && at == Idle
      ensures frames == Model.Pending(Abs(), answers)
      ensures open && answers ==> frames * frameBytes == |taken| - |played|
    {
      if !open { return -1; }
      if !answers { return -1; }
      if |queue| > NUM_BUFFERS { return -1; }
      Proofs.PendingIsWhatIsLeft(Abs());
      hide Proofs.InSlots, Proofs.HeldOk, Proofs.AtOk, Proofs.Contents;
      frames := 0;
      for i := 1 to |queue| + 1
        invariant frames == HeldBefore(held[..], slot, i - 1)
      {
        frames := frames + held[(slot + NUM_BUFFERS - i) % NUM_BUFFERS];
      }
    }

    /** Feeds the player a block, waiting while its queue is full. */
    method WriteAll(buf: seq<Byte>, luck: nat -> Luck, waits: nat -> bool) returns (outcome: Outcome)
      requires Valid() && at == Idle
      modifies this, pool, held
      ensures Valid() && at == Idle
      ensures var (r, took, o) := Model.WriteAll<Quiet>(old(Abs()), buf, 0, 0, WriteChunk(luck), waits);
        Abs() == r && outcome == o && taken == old(taken) + took
      ensures outcome == Done ==> taken == old(taken) + buf
    {
      Proofs.TheRingTakesTheBlock(Abs(), buf, 0, 0, luck, waits);
      ghost var all := Model.WriteAll<Quiet>(Abs(), buf, 0, 0, WriteChunk(luck), waits);
      assert [] + all.1 == all.1;
      outcome := Feed(all, buf, luck, waits);
    }

    method Feed(ghost all: (Quiet, seq<Byte>, Outcome), buf: seq<Byte>, luck: nat -> Luck, waits: nat -> bool)
      returns (outcome: Outcome)
      requires Valid() && at == Idle && Proofs.Remains(all, [], Abs(), buf, 0, 0, luck, waits)
      modifies this, pool, held
      ensures Valid() && at == Idle && Abs() == all.0 && outcome == all.2
    {
      hide Proofs.Valid, Proofs.Remains, Model.Write, Model.WriteAll, WriteChunk;
      assert Sized(Abs()) by { Proofs.SizedWhenValid(Abs()); }
      assert all.0.at == Idle;
      var left, refused, calls := buf, 0, 0;
      ghost var took: seq<Byte> := [];
      while left != []
        invariant refused <= STUCK_WAITS && at == Idle && Valid() && Sized(Abs())
        invariant pool == old(pool) && held == old(held)
        invariant Proofs.Remains(all, took, Abs(), left, refused, calls, luck, waits)
        decreases |left|, STUCK_WAITS - refused
      {
        Proofs.RemainsAfterACall(all, took, Abs(), left, refused, calls, luck, waits);
        var n := Write(left, luck(calls));
        if n < 0 { return Failed; }
        if n > |left| { return BadCount(n, |left|); }
        if n == 0 {
          refused := refused + 1;
          if refused > STUCK_WAITS { return Stuck(refused); }
          if !waits(calls) { return Stopping; }
        } else {
          refused := 0;
          took := took + left[..n];
          left := left[n..];
        }
        calls := calls + 1;
      }
      Proofs.RemainsAtTheEnd(all, took, Abs(), refused, calls, luck, waits);
      return Done;
    }
  }
}
