/**
 One call of a stream after another, in blocks of 480 frames (internal/audio/stream.go:
 157-193, 268-295, 461-486): the chunks written, silence while the mapping is learned,
 and audio. The run of StreamSilence.dfy is made of these.
 */
module StreamCalls {
  import opened FrameClock
  import opened StreamModel
  import opened StreamState
  import opened StreamRuns
  import opened StreamPlacement
  import opened StreamBlocks
  import opened Wrappers

  // ---------- one call after another ----------

  lemma ReachableIsReady(s: State)
    requires Reachable(s)
    ensures Ready(s)
  {
    ReachableIsValid(s);
  }

  lemma Then(s: State, op: Op) returns (t: State)
    requires Reachable(s)
    ensures Ready(s) && t == Apply(s, op) && Reachable(t)
  {
    hide Apply;
    ReachableIsReady(s);
    CallsStayReachable(s, op);
    t := Apply(s, op);
  }

  // ---------- writing the chunks ----------

  function Bytes(n: nat): (b: seq<Byte>)
    ensures |b| == 4 * n
  {
    seq(4 * n, _ => 1)
  }

  lemma BytesOfOnes(n: nat)
    ensures Decode(Bytes(n)) == Ones(n)
  {
    assert Word(1, 1) == 0x101;
  }

  /** A stream nothing was read from yet, holding the first `n` chunks. */
  predicate Stocked(s: State, n: nat)
    requires n <= 7
  {
    && s == NewState(48000).(queue := Chunks(0, n), held := s.held, past := s.past)
    && s.held <= 9600 * n && |s.past.written| == n && s.past.log == []
  }

  const EARLY := -300 * MILLISECOND

  lemma OneChunkMore(s: State, n: nat)
    requires n < 7 && Stocked(s, n)
    ensures Stocked(Write(s, EARLY, DUE[n] * MILLISECOND, Bytes(LENGTHS[n])), n + 1)
  {
    hide FrameCount, Decode;
    FrameCountOfSeconds(48000, 30);
    BytesOfOnes(LENGTHS[n]);
    assert Slot(s.queue, DUE[n] * MILLISECOND, n) == n by {
      assert n > 0 ==> s.queue[n - 1] == Chunk(n - 1);
    }
    assert Inserted(s.queue, n, Chunk(n)) == Chunks(0, n + 1);
  }

  lemma {:induction false} Stock(n: nat) returns (s: State)
    requires n <= 7
    ensures Reachable(s) && Stocked(s, n)
  {
    hide Write;
    if n == 0 {
      s := NewState(48000);
      NewIsReachable(48000);
    } else {
      var before := Stock(n - 1);
      OneChunkMore(before, n - 1);
      s := Then(before, OpWrite(EARLY, DUE[n - 1] * MILLISECOND, Bytes(LENGTHS[n - 1])));
    }
  }

  // ---------- silence, and learning where the output has reached ----------

  /** A stream that gives audio, at frame `index` of its timeline. */
  predicate Stands(s: State, index: int, queue: seq<Queued>) {
    s.rate == 48000 && Reading(s) && !s.jump && s.index == index == |s.past.log| && s.queue == queue
  }

  /** Only silence went out in between, and the mapping was learned. */
  predicate OnlySilence(s: State, t: State) {
    && t == s.(map_ := t.map_, index := t.index, silence := t.silence, past := t.past)
    && s.index <= t.index && |s.past.log| == s.index && |t.past.log| == t.index && s.past.log <= t.past.log
    && forall i | s.index <= i < t.index :: t.past.log[i] == Blind
  }

  lemma BlindBlock(s: State) returns (t: State)
    requires Reachable(s) && Stands(s, s.index, s.queue) && !s.map_.anchored
    ensures Reachable(t) && OnlySilence(s, t) && t.index == s.index + BLOCK && t.map_ == s.map_
    ensures Ready(s) && t == Read(s, BLOCK)
  {
    t := Then(s, OpRead(BLOCK));
    assert t == ReadBlind(s, BLOCK);
  }

  lemma {:induction false} BlindBlocks(s: State, n: nat) returns (t: State)
    requires Reachable(s) && Stands(s, s.index, s.queue) && !s.map_.anchored
    ensures Reachable(t) && OnlySilence(s, t) && t.index == s.index + n * BLOCK && t.map_ == s.map_
    decreases n
  {
    hide Reachable;
    t := s;
    if n > 0 {
      t := BlindBlock(s);
      t := BlindBlocks(t, n - 1);
    }
  }

  /** A mapping on its way to moment `c`, by `k` readings that all name it. */
  predicate Learning(m: Mapping, bursty: bool, ref: int, c: int, k: nat) {
    && !m.anchored && m.bursty == bursty && m.ref == ref && |m.candidates| == k
    && forall i | 0 <= i < k :: m.candidates[i] == c
  }

  predicate Knows(m: Mapping, bursty: bool, origin: int, originIndex: int) {
    m.anchored && m.bursty == bursty && m.origin == origin && m.originIndex == originIndex
  }

  /** Eight blocks are still to be heard when the next is due at `due`. */
  function ReadingOf(due: int, bursty: bool): Point {
    Point(8 * BLOCK, due - 80 * MILLISECOND, bursty)
  }

  lemma DueOf(due: int, bursty: bool)
    ensures Due(48000, ReadingOf(due, bursty)) == due
  {
  }

  lemma OneReadingMore(s: State, p: Point, ref: int, c: int, k: nat)
    requires s.rate == 48000 && 0 < k < ANCHOR_TAKE && Learning(s.map_, p.bursty, ref, c, k)
    requires Due(48000, p) - FrameTime(48000, s.index - ref) == c
    ensures var t := Place(s, p).0;
      && t == s.(map_ := t.map_)
      && if k + 1 < ANCHOR_TAKE then Learning(t.map_, p.bursty, ref, c, k + 1)
         else Knows(t.map_, p.bursty, c, ref)
  {
    hide Due, FrameTime, Sorted, Unease;
    if k + 1 == ANCHOR_TAKE {
      AnchorIsTheMiddleReading(s, p, c, c);
    }
  }

  lemma FirstReading(s: State, p: Point)
    requires s.rate == 48000 && s.map_.bursty != p.bursty
    ensures var t := Place(s, p).0;
      t == s.(map_ := t.map_, queue := Unease(s.queue)) && Learning(t.map_, p.bursty, s.index, Due(48000, p), 1)
  {
    hide Due, Sorted, Unease;
    assert FrameTime(48000, 0) == 0;
  }

  /** A block of silence, and a reading that names the same moment. */
  lemma {:induction false} Learns(s: State, bursty: bool, ref: int, c: int, k: nat) returns (t: State)
    requires Reachable(s) && Stands(s, ref + (k - 1) * BLOCK, s.queue)
    requires 0 < k < ANCHOR_TAKE && Learning(s.map_, bursty, ref, c, k)
    ensures Reachable(t) && OnlySilence(s, t) && Knows(t.map_, bursty, c, ref)
    ensures t.index == ref + 4 * BLOCK
    decreases ANCHOR_TAKE - k
  {
    hide Due, Place, Reachable;
    t := BlindBlock(s);
    var due := c + k * 10 * MILLISECOND;
    assert FrameTime(48000, t.index - ref) == k * 10 * MILLISECOND;
    hide FrameTime;
    DueOf(due, bursty);
    OneReadingMore(t, ReadingOf(due, bursty), ref, c, k);
    t := Then(t, OpPlace(ReadingOf(due, bursty)));
    if k + 1 < ANCHOR_TAKE {
      t := Learns(t, bursty, ref, c, k + 1);
    }
  }

  /** The output changes: the first reading of the new one throws the mapping away. */
  lemma Switches(s: State, bursty: bool, c: int) returns (t: State)
    requires Reachable(s) && Stands(s, s.index, s.queue) && s.map_.bursty != bursty
    ensures Reachable(t) && t == Place(s, ReadingOf(c, bursty)).0 == s.(map_ := t.map_, queue := Unease(s.queue))
    ensures Learning(t.map_, bursty, s.index, c, 1)
  {
    hide Place, Due, Learning;
    DueOf(c, bursty);
    FirstReading(s, ReadingOf(c, bursty));
    t := Then(s, OpPlace(ReadingOf(c, bursty)));
  }

  // ---------- audio ----------

  /** A stream in the middle of its audio. */
  predicate Plays(s: State, index: int, queue: seq<Queued>, smooth: int, easedAt: int) {
    && Stands(s, index, queue) && s.map_.anchored && s.began && s.lastOut == ONE
    && s.smooth == smooth && s.easedAt == easedAt
  }

  lemma ReadsABlock(s: State, queue: seq<Queued>, smooth: int, easedAt: int) returns (t: State)
    requires Reachable(s) && Stands(s, s.index, s.queue) && s.map_.anchored && OffsetsFit(s.queue)
    requires Fills(ToFill(s, BLOCK), Finished(ToFill(s, BLOCK)), queue, smooth, easedAt)
    ensures Reachable(t) && t.map_ == s.map_ && t.past.log == Finished(ToFill(s, BLOCK)).log
    ensures Plays(t, s.index + BLOCK, queue, smooth, easedAt)
    ensures t == Read(s, BLOCK) && s.past.log <= t.past.log
  {
    t := Then(s, OpRead(BLOCK));
    hide Reachable;
    FinishedStaysInBlock(ToFill(s, BLOCK));
    hide Finished;
  }

  lemma PlaysABlock(s: State, c: Queued, smooth: int, easedAt: int) returns (t: State)
    requires Reachable(s) && Stands(s, s.index, s.queue) && s.map_.anchored && s.queue != []
    requires Decided(ToFill(s, BLOCK), c, smooth, easedAt)
    requires IsOnes(c) && c.place + c.off == s.index && c.off + BLOCK <= |c.pcm|
    ensures Reachable(t) && t.map_ == s.map_ && s.past.log <= t.past.log
    ensures Plays(t, s.index + BLOCK, Further(c, BLOCK, s.queue[1..]), smooth, easedAt)
  {
    hide Reachable, Decided, IsOnes, Further, Decide;
    ReachableIsReady(s);
    var f := ToFill(s, BLOCK);
    HeadPlays(f, c, smooth, easedAt);
    StepMakesProgress(f);
    assert Finished(f) == Finished(Step(f)) == Step(f);
    t := ReadsABlock(s, Further(c, BLOCK, s.queue[1..]), smooth, easedAt);
  }

  /** A head that is part-played goes on for `n` blocks. */
  lemma {:induction false} PlaysOn(s: State, n: nat) returns (t: State)
    requires Reachable(s) && Plays(s, s.index, s.queue, s.smooth, s.easedAt) && s.queue != []
    requires var c := s.queue[0]; c.eased && IsOnes(c) && c.place + c.off == s.index && c.off + n * BLOCK < |c.pcm|
    ensures Reachable(t) && t.map_ == s.map_ && s.past.log <= t.past.log
    ensures Plays(t, s.index + n * BLOCK, Further(s.queue[0], n * BLOCK, s.queue[1..]), s.smooth, s.easedAt)
    decreases n
  {
    hide Reachable, IsOnes;
    t := s;
    if n > 0 {
      t := PlaysABlock(s, s.queue[0], s.smooth, s.easedAt);
      assert IsOnes(t.queue[0]) by { Longer(s.queue[0], BLOCK); }
      t := PlaysOn(t, n - 1);
    }
  }
}
