/**
 Blocks of 480 frames filled from chunks whose frames are all alike
 (internal/audio/stream.go:331-403): what StreamCalls.dfy and StreamSilence.dfy build
 their run of.
 */
module StreamBlocks {
  import opened GoInt
  import opened FrameClock
  import opened StreamModel
  import opened StreamState
  import opened StreamLeads
  import opened Wrappers

  /** All of its bytes are one. */
  const ONE := Frame(0x101, 0x101)

  const BLOCK := 480

  // ---------- seven chunks ----------

  const LENGTHS: seq<nat> := [2400, 480, 480, 480, 480, 479, 9600]

  /** In milliseconds. The first is due at once, the rest 49 ms later than they will be played. */
  const DUE: seq<nat> := [40, 139, 149, 159, 169, 179, 189]

  function Ones(n: nat): (frames: seq<Frame>)
    ensures |frames| == n
  {
    seq(n, _ => ONE)
  }

  function Chunk(k: nat): Queued
    requires k < 7
  {
    Fresh(DUE[k] * MILLISECOND, Ones(LENGTHS[k]), k)
  }

  function Chunks(from: nat, to: nat): (q: seq<Queued>)
    requires from <= to <= 7
    ensures |q| == to - from
  {
    seq(to - from, i requires 0 <= i < to - from => Chunk(from + i))
  }

  lemma OneChunkLess(k: nat)
    requires k < 7
    ensures Chunks(k, 7) == [Chunk(k)] + Chunks(k + 1, 7) && Chunks(k, 7)[1..] == Chunks(k + 1, 7)
  {
  }

  // ---------- the head, once it is placed ----------

  /** How the head is placed at the start of a block. */
  predicate Decided(f: Fill, c: Queued, smooth: int, easedAt: int)
    requires f.Working()
  {
    var d := Decide(f);
    d.queue[0] == c && d.smooth == smooth && d.easedAt == easedAt && !d.jump
  }

  /** The queue once its head, placed, has given up `n` frames. */
  function Further(c: Queued, n: nat, rest: seq<Queued>): seq<Queued> {
    if c.off + n == |c.pcm| then rest else [c.(off := c.off + n)] + rest
  }

  predicate IsOnes(c: Queued) {
    c.pcm == Ones(|c.pcm|) && !c.seam
  }

  lemma Longer(c: Queued, n: nat)
    requires IsOnes(c)
    ensures IsOnes(c.(off := c.off + n))
  {
  }

  lemma PlayingOnes(d: Fill, c: Queued, n: nat)
    requires d.Working() && d.queue[0] == c && IsOnes(c) && 0 < n && c.off + n <= |c.pcm|
    ensures var g := PlayHead(d, n);
      && g.queue == Further(c, n, d.queue[1..]) && g.lastOut == ONE && g.began
      && |g.log| == |d.log| + n && d.log <= g.log
  {
    assert d.queue[0 := c.(off := c.off + n)] == [c.(off := c.off + n)] + d.queue[1..];
  }

  lemma HeadPlays(f: Fill, c: Queued, smooth: int, easedAt: int)
    requires f.Working() && OffsetsFit(f.queue) && Decided(f, c, smooth, easedAt)
    requires IsOnes(c) && c.place + c.off == f.Want() && c.off < |c.pcm|
    ensures var n := Min(f.frames - f.pos, |c.pcm| - c.off); var g := Step(f);
      && g.queue == Further(c, n, f.queue[1..]) && g.lastOut == ONE && g.began && !g.jump
      && g.smooth == smooth && g.easedAt == easedAt
      && g.pos == f.pos + n && |g.log| == |f.log| + n && f.log <= g.log
      && g == f.(queue := g.queue, lastOut := ONE, began := true, jump := false, smooth := smooth,
                 easedAt := easedAt, pos := g.pos, log := g.log, held := g.held, filled := g.filled)
  {
    DecideKeeps(f);
    var d := Decide(f);
    var n := Min(f.frames - f.pos, |c.pcm| - c.off);
    assert Step(f) == PlayHead(d, n);
    hide Decide, Step, Ones;
    PlayingOnes(d, c, n);
  }

  const RAMP := Ramp(ONE, ONE, RampFrame(ONE, ONE, 0, 1))

  /** A head placed a frame from here is led to by a ramp. */
  lemma HeadRamps(f: Fill, c: Queued, smooth: int, easedAt: int)
    requires f.Working() && OffsetsFit(f.queue) && Decided(f, c, smooth, easedAt)
    requires IsOnes(c) && c.soft && c.place + c.off == f.Want() + 1 && c.off < |c.pcm| && f.lastOut == ONE
    ensures var g := Step(f);
      g == f.(queue := [c] + f.queue[1..], jump := false, smooth := smooth, easedAt := easedAt,
              pos := f.pos + 1, blended := f.blended + 1, log := f.log + [RAMP])
  {
    DecideKeeps(f);
    var d := Decide(f);
    assert d.queue == [c] + f.queue[1..];
    assert Step(f) == WaitForHead(d, 1);
    hide Decide, Step, RampFrame;
    assert RampCells(ONE, ONE, 1) == [RAMP];
  }

  /** A soft head that was cut is smoothed into the frame last sounded. */
  lemma PlaysSmoothed(g: Fill)
    requires g.Working() && OffsetsFit(g.queue) && g.queue[0].eased && g.queue[0].soft && g.queue[0].seam
    requires g.queue[0].place + g.queue[0].off == g.Want() && g.queue[0].off < |g.queue[0].pcm|
    ensures var log := Step(g).log;
      |log| > |g.log| && log[|g.log|].Played? && log[|g.log|].seam == Some(g.lastOut)
  {
    hide Mean;
    var n := Min(g.frames - g.pos, |g.queue[0].pcm| - g.queue[0].off);
    assert Step(g) == PlayHead(g, n);
    hide Step;
    assert PlayHead(g, n).log[|g.log|] == PlayedCells(g.queue[0], n, g.lastOut)[0];
  }

  /** A soft head left behind by silence gives up what it missed, and is smoothed. */
  lemma CatchesUpSmoothed(f: Fill, c: Queued)
    requires f.Working() && OffsetsFit(f.queue) && f.queue == [c] && c.eased && c.soft
    requires 0 < f.Want() - (c.place + c.off) < |c.pcm| - c.off
    ensures var log := Finished(f).log;
      |log| > |f.log| && log[|f.log|].Played? && log[|f.log|].seam == Some(f.lastOut) && f.log <= log
  {
    var g := CutHead(f, f.Want() - (c.place + c.off));
    assert Step(f) == g;
    StepMakesProgress(f);
    StepMakesProgress(g);
    PlaysSmoothed(g);
    hide Step, PlayHead;
    FinishedOnlyAppends(f);
    FinishedOnlyAppends(Step(g));
    assert Finished(f) == Finished(g) == Finished(Step(g));
  }

  // ---------- how chunks are placed ----------

  lemma HardOnTheSpot(f: Fill)
    requires f.Working() && f.rate == 48000 && !f.queue[0].eased && !f.began && !f.jump
    requires f.smooth == 0 && f.easedAt == 0 && f.FrameAt(f.queue[0].at) == f.Want() && f.index >= EASE_APART
    ensures var c := f.queue[0].(eased := true, soft := false, place := f.Want(), due := f.Want());
      Decided(f, c, 0, 0)
  {
    hide FrameCount;
    assert Smoothed(0, 0) == 0;
    EaseAt48000(0);
  }

  lemma EaseAt48000(err: int)
    ensures Ease(48000, err) == if err >= 240 then 1 else if err <= -240 then -1 else 0
  {
    assert FrameCount(48000, DEAD_BAND) == 240 && FrameCount(48000, SOFT_STEP) == 1;
  }

  /** A chunk up to 50 ms early is placed at once, or a frame later when its lag asks for it. */
  lemma SoftAhead(f: Fill, err: int, smooth: int)
    requires f.Working() && f.rate == 48000 && !f.queue[0].eased && f.began && !f.jump
    requires f.FrameAt(f.queue[0].at) - f.Want() == err && 1 < err <= 2400
    requires smooth == Smoothed(f.smooth, err) >= 0 && f.index - f.easedAt >= EASE_APART
    ensures var step := if smooth / SMOOTH_ONE >= 240 then 1 else 0;
      Decided(f, f.queue[0].(eased := true, soft := true, place := f.Want() + step, due := f.Want() + err),
              smooth, if step != 0 then f.index else f.easedAt)
  {
    assert FrameCount(48000, SNAP_ABOVE) == 2400;
    hide FrameCount, Smoothed;
    EaseAt48000(smooth / SMOOTH_ONE);
  }

  // ---------- two blocks with a ramp ----------

  /** A block filled to its end from `f`, and what it leaves. */
  predicate Fills(f: Fill, g: Fill, queue: seq<Queued>, smooth: int, easedAt: int) {
    && g.queue == queue && g.pos == BLOCK && g.lastOut == ONE && g.began && !g.jump
    && g.smooth == smooth && g.easedAt == easedAt && |g.log| == |f.log| + BLOCK && f.log <= g.log
  }

  /** The last chunk, placed a frame after the block, and due at `due`. */
  function Last(place: int, due: int): Queued {
    Chunk(6).(eased := true, soft := true, place := place, due := due)
  }

  /** Chunk 5 ends a frame before the block does. */
  lemma PlaysChunk5(f: Fill)
    requires f.Working() && f.rate == 48000 && OffsetsFit(f.queue) && f.queue == [Chunk(5), Chunk(6)]
    requires f.began && !f.jump && f.smooth == 186_970 && f.easedAt == 0 && f.originIndex == 9600 && f.origin == 0
    requires f.index == 15_840 && f.pos == 0 && f.frames == BLOCK
    ensures var g := Step(f);
      && g == f.(queue := [Chunk(6)], lastOut := ONE, smooth := 231_399, pos := 479, log := g.log, held := g.held,
                 filled := g.filled)
      && |g.log| == |f.log| + 479 && f.log <= g.log
  {
    assert FrameCount(48000, 179 * MILLISECOND) == 8592;
    hide FrameCount;
    SoftAhead(f, 2352, 231_399);
    HeadPlays(f, Chunk(5).(eased := true, soft := true, place := 15_840, due := 18_192), 231_399, 0);
  }

  lemma PlaysThenRamps(f: Fill)
    requires f.Working() && f.rate == 48000 && OffsetsFit(f.queue) && f.queue == [Chunk(5), Chunk(6)]
    requires f.began && !f.jump && f.smooth == 186_970 && f.easedAt == 0 && f.originIndex == 9600 && f.origin == 0
    requires f.index == 15_840 && f.pos == 0 && f.frames == BLOCK
    ensures var g := Finished(f);
      Fills(f, g, [Last(16_320, 18_672)], 274_960, 15_840) && g.log[|g.log| - 1] == RAMP
  {
    assert FrameCount(48000, 189 * MILLISECOND) == 9072;
    hide FrameCount, Ones, Further;
    StepMakesProgress(f);
    PlaysChunk5(f);
    var g := Step(f);
    SoftAhead(g, 2353, 274_960);
    HeadRamps(g, Last(16_320, 18_672), 274_960, 15_840);
    hide Step, Decided;
    assert Finished(f) == Finished(g) == Finished(Step(g)) == Step(g);
  }

  const SPEAKER := 100 * MILLISECOND

  lemma RampsThenPlays(f: Fill)
    requires f.Working() && f.rate == 48000 && OffsetsFit(f.queue)
    requires f.queue == [Last(16_320, 18_672).(eased := false)] && f.lastOut == ONE
    requires f.began && !f.jump && f.smooth == 274_960 && f.easedAt == 15_840
    requires f.originIndex == 16_320 && f.origin == SPEAKER
    requires f.index == 18_240 && f.pos == 0 && f.frames == BLOCK && f.blended == 0
    ensures var g := Finished(f);
      Fills(f, g, [Last(18_241, 20_592).(off := BLOCK - 1)], 317_629, 18_240) && f.log + [RAMP] <= g.log
  {
    assert FrameCount(48000, 189 * MILLISECOND - SPEAKER) == 4272;
    hide FrameCount;
    SoftAhead(f, 2352, 317_629);
    var c := Last(18_241, 20_592);
    HeadRamps(f, c, 317_629, 18_240);
    var g := Step(f);
    assert Decide(g) == g;
    HeadPlays(g, c, 317_629, 18_240);
    hide Decide, Step, Ones;
    assert Finished(f) == Finished(g) == Finished(Step(g)) == Step(g);
  }
}
