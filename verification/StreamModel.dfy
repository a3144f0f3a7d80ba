/**
 The values an audio stream is made of, and what each of its operations does to
 them (internal/audio/stream.go). Times are integer nanoseconds, positions are
 frames, and a frame is one sample for each of the two channels.

 The class in Stream.dfy has the fields and the loops; this file says what they
 compute, as functions from one state to the next.
 */
module StreamModel {
  import opened GoInt
  import opened FrameClock
  import opened Wrappers

  datatype Frame = Frame(left: Sample, right: Sample)

  const SILENT := Frame(0, 0)

  const MILLISECOND := 1_000_000
  const MICROSECOND := 1_000

  const FRAME_BYTES := 4
  const STREAM_AHEAD := 30 * SECOND
  const STREAM_HOLD := 30 * SECOND
  const STREAM_CHUNKS := 3000
  const ANCHOR_TAKE := 5
  const ANCHOR_SLIP := 50 * MILLISECOND
  const SLIP_RUNS := 3
  const BURSTY_FIRST := 20
  const BURSTY_OVER := 128
  const BURSTY_BAND := 4 * MILLISECOND
  const BURSTY_SLIP := 150 * MILLISECOND
  const DEAD_BAND := 5 * MILLISECOND
  const SOFT_STEP := 21 * MICROSECOND
  const EASE_APART := 200
  const SNAP_ABOVE := 50 * MILLISECOND
  const SMOOTH_OVER := 50
  const SMOOTH_ONE := 1024

  /** The two rates the player opens at. */
  predicate KnownRate(rate: int) {
    rate == 48000 || rate == 44100
  }

  /**
   A chunk waiting to be played. `id` numbers the write that brought it in and
   `due` is the frame its timestamp named when `place` was last decided; the
   program has neither and no branch reads them.
   */
  datatype Queued = Queued(
    at: int, pcm: seq<Frame>, off: nat, eased: bool, soft: bool, seam: bool, place: int,
    id: nat, due: int)

  /** Where one frame of the timeline came from; `seam` is the frame it was smoothed into, if it was. */
  datatype Cell =
    | Dry    // nothing was queued
    | Gap    // the chunk at the head is not due yet
    | Blind  // the stream does not know where the player has reached
    | Ramp(from: Frame, to: Frame, value: Frame)
    | Played(id: nat, off: nat, place: int, due: int, soft: bool, seam: Option<Frame>, value: Frame)
  {
    function Value(): Frame {
      match this
      case Ramp(_, _, v) => v
      case Played(_, _, _, _, _, _, v) => v
      case _ => SILENT
    }

    /** Whether it was made to follow on from some frame before it, and from which. */
    predicate Joins() {
      Ramp? || (Played? && seam.Some?)
    }

    function From(): Frame
      requires Joins()
    {
      if Ramp? then from else seam.value
    }
  }

  // ---------- samples ----------

  function Word(lo: Byte, hi: Byte): Sample {
    var u := lo + 256 * hi;
    if u >= 32768 then u - 65536 else u
  }

  function Decode(pcm: seq<Byte>): (out: seq<Frame>)
    requires |pcm| % FRAME_BYTES == 0
    ensures |out| == |pcm| / FRAME_BYTES
  {
    seq(|pcm| / FRAME_BYTES, i requires 0 <= i < |pcm| / FRAME_BYTES =>
      Frame(Word(pcm[4 * i], pcm[4 * i + 1]), Word(pcm[4 * i + 2], pcm[4 * i + 3])))
  }

  function MeanSample(a: Sample, b: Sample): Sample {
    Quo(a + b, 2)
  }

  function Mean(a: Frame, b: Frame): Frame {
    Frame(MeanSample(a.left, b.left), MeanSample(a.right, b.right))
  }

  function RampSample(from: Sample, to: Sample, i: nat, n: nat): Sample
    requires i < n
  {
    RampStaysBetween(from, to, i, n);
    from + Quo((to - from) * (i + 1), n + 1)
  }

  /** A ramp never leaves the span of the two samples it joins. */
  lemma RampStaysBetween(from: Sample, to: Sample, i: nat, n: nat)
    requires i < n
    ensures Min(from, to) <= from + Quo((to - from) * (i + 1), n + 1) <= Max(from, to)
  {
    if to >= from {
      PartOfAStep(to - from, i + 1, n + 1);
    } else {
      PartOfAStep(from - to, i + 1, n + 1);
      NegatedProduct(from - to, i + 1);
      QuoOdd((from - to) * (i + 1), n + 1);
    }
  }

  lemma PartOfAStep(x: nat, k: nat, n: nat)
    requires 0 < n && k <= n
    ensures 0 <= Quo(x * k, n) <= x
  {
    MulMono(x, 0, k);
    MulMono(x, k, n);
    QuoMono(0, x * k, n);
    QuoMono(x * k, x * n, n);
    DivIsUnique(x * n, n, x);
  }

  function RampFrame(from: Frame, to: Frame, i: nat, n: nat): Frame
    requires i < n
  {
    Frame(RampSample(from.left, to.left, i, n), RampSample(from.right, to.right, i, n))
  }

  // ---------- filling one block ----------

  /** What `fill` reads and changes while it works through one block. */
  datatype Fill = Fill(
    rate: int, index: int, frames: nat, origin: int, originIndex: int,
    queue: seq<Queued>, held: int, late: int,
    began: bool, jump: bool, smooth: int, easedAt: int, lastOut: Frame,
    pos: nat, filled: nat, blended: nat, trimmed: nat,
    log: seq<Cell>)
  {
    predicate Working() {
      rate > 0 && pos < frames && queue != []
    }

    function Want(): int { index + pos }

    function FrameAt(at: int): int
      requires rate > 0
    {
      originIndex + FrameCount(rate, at - origin)
    }
  }

  function Smoothed(smooth: int, err: int): int {
    smooth + Quo(err * SMOOTH_ONE - smooth, SMOOTH_OVER)
  }

  function Ease(rate: int, err: int): int
    requires rate > 0
  {
    var band, step := FrameCount(rate, DEAD_BAND), Max(1, FrameCount(rate, SOFT_STEP));
    if err >= band then Min(err, step)
    else if err <= -band then Max(err, -step)
    else 0
  }

  /** Every queued chunk has a frame left to play, or never had one. */
  predicate OffsetsFit(queue: seq<Queued>) {
    forall i | 0 <= i < |queue| :: Unfinished(queue[i])
  }

  predicate Unfinished(c: Queued) {
    c.off < |c.pcm| || (c.off == 0 && |c.pcm| == 0)
  }

  /** The head chunk is given its place, unless it already has one. */
  function Decide(f: Fill): Fill
    requires f.Working()
  {
    var c := f.queue[0];
    if c.eased then f
    else
      var snap := FrameCount(f.rate, SNAP_ABOVE);
      var err := f.FrameAt(c.at) - f.Want();
      var smooth := Smoothed(f.smooth, err);
      var eased := if f.index - f.easedAt >= EASE_APART then Ease(f.rate, smooth / SMOOTH_ONE) else 0;
      var hard := !f.began || f.jump || err > snap || err < -snap;
      var step := if hard then err else eased;
      var c' := c.(eased := true, soft := step != err, place := f.Want() + step,
                   due := f.FrameAt(c.at));
      f.(queue := f.queue[0 := c'],
         smooth := if hard then 0 else smooth,
         easedAt := if eased != 0 then f.index else f.easedAt,
         jump := if hard then f.jump && err <= -|c.pcm| else f.jump)
  }

  /** The whole rest of the head chunk is already in the past. */
  function DropHead(f: Fill): Fill
    requires f.Working() && f.queue[0].off <= |f.queue[0].pcm|
  {
    var left := |f.queue[0].pcm| - f.queue[0].off;
    f.(queue := f.queue[1..], late := f.late + left, held := f.held - left)
  }

  /** The first `n` unplayed frames of the head chunk are in the past. */
  function CutHead(f: Fill, n: nat): Fill
    requires f.Working()
  {
    var c := f.queue[0];
    var g := f.(queue := f.queue[0 := c.(off := c.off + n, seam := true)], held := f.held - n);
    if c.soft then g.(trimmed := f.trimmed + n) else g.(late := f.late + n)
  }

  function RampCells(from: Frame, to: Frame, n: nat): (cells: seq<Cell>)
    ensures |cells| == n
  {
    seq(n, i requires 0 <= i < n => Ramp(from, to, RampFrame(from, to, i, n)))
  }

  /** The head chunk is `n` frames away inside this block. */
  function WaitForHead(f: Fill, n: nat): Fill
    requires f.Working() && f.queue[0].off < |f.queue[0].pcm|
  {
    var c := f.queue[0];
    if c.soft then
      f.(pos := f.pos + n, blended := f.blended + n,
         log := f.log + RampCells(f.lastOut, c.pcm[c.off], n))
    else
      f.(pos := f.pos + n, log := f.log + seq(n, _ => Gap))
  }

  function PlayedCells(c: Queued, n: nat, lastOut: Frame): (cells: seq<Cell>)
    requires c.off + n <= |c.pcm|
    ensures |cells| == n
  {
    seq(n, i requires 0 <= i < n =>
      var seamed := i == 0 && c.soft && c.seam;
      Played(c.id, c.off + i, c.place, c.due, c.soft, if seamed then Some(lastOut) else None,
             if seamed then Mean(lastOut, c.pcm[c.off]) else c.pcm[c.off + i]))
  }

  /** The head chunk's next `n` frames go out. */
  function PlayHead(f: Fill, n: nat): Fill
    requires f.Working() && 0 < n && f.queue[0].off + n <= |f.queue[0].pcm|
  {
    var c := f.queue[0];
    var cells := PlayedCells(c, n, f.lastOut);
    var c' := c.(off := c.off + n, seam := if c.soft then false else c.seam);
    f.(queue := if c'.off == |c.pcm| then f.queue[1..] else f.queue[0 := c'],
       held := f.held - n, began := true, lastOut := cells[n - 1].Value(),
       pos := f.pos + n, filled := f.filled + n, log := f.log + cells)
  }

  /** One turn of the loop in `fill`. */
  function Step(f: Fill): Fill
    requires f.Working() && Unfinished(f.queue[0])
  {
    if |f.queue[0].pcm| == 0 then f.(queue := f.queue[1..])
    else Placed(Decide(f))
  }

  /** What the place of the head chunk asks for at this point of the block. */
  function Placed(g: Fill): Fill
    requires g.Working() && g.queue[0].off < |g.queue[0].pcm|
  {
    var c, want := g.queue[0], g.Want();
    var start, left := c.place + c.off, |c.pcm| - c.off;
    if start + left <= want then DropHead(g)
    else if start < want then CutHead(g, want - start)
    else if start > want then WaitForHead(g, Min(start - want, g.frames - g.pos))
    else PlayHead(g, Min(g.frames - g.pos, left))
  }

  /** What the place of the head asks for, case by case. */
  predicate Turned(f: Fill, g: Fill)
    requires f.Working() && f.queue[0].off < |f.queue[0].pcm|
  {
    var late := f.Want() - (f.queue[0].place + f.queue[0].off);
    var left := |f.queue[0].pcm| - f.queue[0].off;
    if late >= left then g == DropHead(f)
    else if late > 0 then g == CutHead(f, late)
    else if late < 0 then g == WaitForHead(f, Min(-late, f.frames - f.pos))
    else g == PlayHead(f, Min(f.frames - f.pos, left))
  }

  lemma PlacedIsTheTurn(f: Fill, g: Fill)
    requires f.Working() && f.queue[0].off < |f.queue[0].pcm| && Turned(f, g)
    ensures g == Placed(f)
  {
  }

  function HeadLeft(f: Fill): int {
    if f.queue == [] then 0 else |f.queue[0].pcm| - f.queue[0].off
  }

  /**
   Every turn of the loop shortens the queue, or else advances in the block, or
   else uses up frames of the head chunk.
   */
  lemma StepMakesProgress(f: Fill)
    requires f.Working() && OffsetsFit(f.queue) && f.pos <= f.frames
    ensures var g := Step(f);
            && OffsetsFit(g.queue) && g.pos <= g.frames && g.frames == f.frames && g.rate == f.rate
            && (|g.queue| < |f.queue|
                || (|g.queue| == |f.queue| && g.pos > f.pos)
                || (|g.queue| == |f.queue| && g.pos == f.pos && 0 <= HeadLeft(g) < HeadLeft(f)))
  {
    if |f.queue[0].pcm| > 0 {
      DecideKeeps(f);
      PlacingMakesProgress(Decide(f));
    }
  }

  lemma DecideKeeps(f: Fill)
    requires f.Working()
    ensures var g := Decide(f); var c := f.queue[0];
            && g.queue[1..] == f.queue[1..] && |g.queue| == |f.queue|
            && g.queue[0] == c.(eased := true, soft := g.queue[0].soft, place := g.queue[0].place,
                                due := g.queue[0].due)
            && g == f.(queue := g.queue, smooth := g.smooth, easedAt := g.easedAt, jump := g.jump)
    ensures OffsetsFit(f.queue) ==> OffsetsFit(Decide(f).queue)
    ensures f.queue[0].eased ==> Decide(f) == f
  {
  }

  lemma PlacingMakesProgress(f: Fill)
    requires f.Working() && OffsetsFit(f.queue) && f.queue[0].off < |f.queue[0].pcm|
    ensures var g := Placed(f);
            && OffsetsFit(g.queue) && g.pos <= g.frames && g.frames == f.frames && g.rate == f.rate
            && (|g.queue| < |f.queue|
                || (|g.queue| == |f.queue| && g.pos > f.pos)
                || (|g.queue| == |f.queue| && g.pos == f.pos && 0 <= HeadLeft(g) < HeadLeft(f)))
  {
  }

  /** `fill` from where it stands to the end of the block or of the queue. */
  function Finished(f: Fill): (g: Fill)
    requires f.rate > 0 && OffsetsFit(f.queue) && f.pos <= f.frames
    decreases |f.queue|, f.frames - f.pos, HeadLeft(f)
  {
    if f.pos < f.frames && f.queue != [] then
      StepMakesProgress(f);
      Finished(Step(f))
    else f
  }

  /** The tail of a block nothing was due in leaves nothing to ramp from. */
  function RunDry(f: Fill): Fill
    requires f.pos <= f.frames
  {
    if f.pos < f.frames then
      f.(lastOut := SILENT, log := f.log + seq(f.frames - f.pos, _ => Dry))
    else f
  }
}
