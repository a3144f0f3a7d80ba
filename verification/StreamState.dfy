/**
 The whole state of a stream and every call that changes it
 (internal/audio/stream.go), as functions from one state to the next.
 */
module StreamState {
  import opened GoInt
  import opened FrameClock
  import opened StreamModel
  import opened Wrappers

  /** Where wall time meets the frame index, and how that is being learned. */
  datatype Mapping = Mapping(
    anchored: bool, origin: int, originIndex: int, ref: int, candidates: seq<int>,
    bursty: bool, slipMean: int, firstSum: int, firstTaken: int, outside: int, slips: int)

  datatype Written = Written(at: int, pcm: seq<Frame>)

  /**
   What has happened so far. The program keeps none of it and no branch reads it:
   every chunk ever accepted, the frames thrown away by `discard`, cut by a soft
   trim or ramped in, the frames put out without a mapping since the last block
   that had one, and the source of every frame of the timeline.
   */
  datatype History = History(
    written: seq<Written>, discarded: int, trimmed: int, blended: int, blind: int,
    log: seq<Cell>)

  datatype State = State(
    rate: int, queue: seq<Queued>, held: int, index: int,
    done: bool, ended: int, spent: bool, closed: bool,
    map_: Mapping, jump: bool,
    placed: int, silence: int, late: int, eased: int,
    began: bool, lastOut: Frame, smooth: int, easedAt: int,
    past: History)

  function NewMapping(): Mapping {
    Mapping(false, 0, 0, 0, [], false, 0, 0, 0, 0, 0)
  }

  function NewState(rate: int): State {
    State(rate, [], 0, 0, false, 0, false, false, NewMapping(), false,
          0, 0, 0, 0, false, SILENT, 0, 0, History([], 0, 0, 0, 0, []))
  }

  // ---------- Write ----------

  datatype Refusal = PartialFrame | StreamClosed | StreamDone | TooFarOff | TooMuchHeld | TooManyChunks

  function Refused(s: State, now: int, at: int, pcm: seq<Byte>): Option<Refusal>
    requires s.rate > 0
  {
    var due := at - now;
    if |pcm| % FRAME_BYTES != 0 then Some(PartialFrame)
    else if s.closed || s.spent then Some(StreamClosed)
    else if s.done then Some(StreamDone)
    else if due > STREAM_AHEAD || due < -STREAM_AHEAD then Some(TooFarOff)
    else if s.held + |pcm| / FRAME_BYTES > FrameCount(s.rate, STREAM_HOLD) then Some(TooMuchHeld)
    else if |s.queue| >= STREAM_CHUNKS then Some(TooManyChunks)
    else None
  }

  /** Where a chunk due at `at` goes among the first `i` of the queue. */
  function Slot(queue: seq<Queued>, at: int, i: nat): (k: nat)
    requires i <= |queue|
    ensures k <= i
  {
    if i > 0 && queue[i - 1].at > at && queue[i - 1].off == 0 then Slot(queue, at, i - 1) else i
  }

  function Fresh(at: int, pcm: seq<Frame>, id: nat): Queued {
    Queued(at, pcm, 0, false, false, false, 0, id, 0)
  }

  function Inserted(queue: seq<Queued>, i: nat, c: Queued): seq<Queued>
    requires i <= |queue|
  {
    var q := if i < |queue| then queue[i := queue[i].(eased := false)] else queue;
    q[..i] + [c] + q[i..]
  }

  function Accept(s: State, at: int, pcm: seq<Frame>): State {
    s.(queue := Inserted(s.queue, Slot(s.queue, at, |s.queue|), Fresh(at, pcm, |s.past.written|)),
       held := s.held + |pcm|,
       past := s.past.(written := s.past.written + [Written(at, pcm)]))
  }

  function Write(s: State, now: int, at: int, pcm: seq<Byte>): State
    requires s.rate > 0
  {
    if Refused(s, now, at, pcm) == None then Accept(s, at, Decode(pcm)) else s
  }

  // ---------- Finish, Resume, Clear, Close ----------

  function Discard(s: State): State {
    s.(queue := [], held := 0, began := false, smooth := 0, easedAt := 0,
       past := s.past.(discarded := s.past.discarded + s.held))
  }

  function Finish(s: State): State {
    if s.closed || s.spent || s.done then s
    else Discard(s.(done := true)).(ended := s.ended + s.held)
  }

  function Resume(s: State): State {
    if s.closed || s.spent then s else s.(done := false)
  }

  function Close(s: State): State {
    s.(closed := true)
  }

  // ---------- read ----------

  function ToFill(s: State, frames: nat): Fill {
    Fill(s.rate, s.index, frames, s.map_.origin, s.map_.originIndex,
         s.queue, s.held, s.late, s.began, s.jump, s.smooth, s.easedAt, s.lastOut,
         0, 0, 0, 0, s.past.log)
  }

  /** The stream after a block whose filling ended in `f`. */
  function FromFill(s: State, f: Fill): State {
    s.(queue := f.queue, held := f.held, late := f.late, began := f.began, jump := f.jump,
       smooth := f.smooth, easedAt := f.easedAt, lastOut := f.lastOut,
       placed := s.placed + f.filled,
       silence := s.silence + (f.frames - f.filled - f.blended),
       eased := s.eased + f.blended + f.trimmed,
       index := s.index + f.frames,
       past := s.past.(trimmed := s.past.trimmed + f.trimmed,
                       blended := s.past.blended + f.blended,
                       blind := if f.frames > 0 then 0 else s.past.blind, log := f.log))
  }

  function ReadBlind(s: State, frames: nat): State {
    s.(silence := s.silence + frames, index := s.index + frames,
       past := s.past.(blind := s.past.blind + frames, log := s.past.log + seq(frames, _ => Blind)))
  }

  /** A stream gives audio, or silence, until it has been ended and then read. */
  predicate Reading(s: State) {
    !s.closed && !s.spent && !s.done
  }

  function Read(s: State, frames: nat): State
    requires s.rate > 0 && OffsetsFit(s.queue)
  {
    if s.closed || s.spent then s
    else if s.done then s.(spent := true)
    else if s.map_.anchored then FromFill(s, RunDry(FinishedInBlock(ToFill(s, frames))))
    else ReadBlind(s, frames)
  }

  function FinishedInBlock(f: Fill): (g: Fill)
    requires f.rate > 0 && OffsetsFit(f.queue) && f.pos <= f.frames
    ensures g.pos <= g.frames
  {
    FinishedStaysInBlock(f);
    Finished(f)
  }

  lemma FinishedStaysInBlock(f: Fill)
    requires f.rate > 0 && OffsetsFit(f.queue) && f.pos <= f.frames
    ensures var g := Finished(f);
            && OffsetsFit(g.queue) && g.pos <= g.frames && g.frames == f.frames && g.rate == f.rate
            && (g.pos == g.frames || g.queue == [])
    decreases |f.queue|, f.frames - f.pos, HeadLeft(f)
  {
    if f.pos < f.frames && f.queue != [] {
      StepMakesProgress(f);
      FinishedStaysInBlock(Step(f));
    }
  }

  // ---------- place and follow ----------

  /** A reading of the player: `ahead` frames still to be heard at `at`. */
  datatype Point = Point(ahead: int, at: int, bursty: bool)

  datatype Verdict = Verdict(depth: int, slip: int, again: bool)

  const NOTHING := Verdict(0, 0, false)

  function Unease(queue: seq<Queued>): (q: seq<Queued>)
    ensures |q| == |queue|
  {
    seq(|queue|, i requires 0 <= i < |queue| =>
      if queue[i].off == 0 then queue[i].(eased := false) else queue[i])
  }

  function Insort(x: int, sorted: seq<int>): seq<int> {
    if sorted == [] || x <= sorted[0] then [x] + sorted else [sorted[0]] + Insort(x, sorted[1..])
  }

  function Sorted(xs: seq<int>): (r: seq<int>)
    ensures |r| == |xs|
  {
    if xs == [] then [] else
      InsortLength(xs[0], Sorted(xs[1..]));
      Insort(xs[0], Sorted(xs[1..]))
  }

  lemma InsortLength(x: int, sorted: seq<int>)
    ensures |Insort(x, sorted)| == |sorted| + 1
  {
  }

  /** A change of output throws the mapping away. */
  function SwitchOutput(s: State, bursty: bool): State {
    if bursty == s.map_.bursty then s
    else s.(map_ := s.map_.(anchored := false, candidates := [], outside := 0, bursty := bursty),
            queue := Unease(s.queue))
  }

  function Due(rate: int, p: Point): int
    requires rate > 0
  {
    p.at + FrameTime(rate, p.ahead)
  }

  /** One more reading of an unanchored stream; the last one needed anchors it. */
  function Learn(s: State, p: Point): (State, Verdict)
    requires s.rate > 0
  {
    var due := Due(s.rate, p);
    var ref := if s.map_.candidates == [] then s.index else s.map_.ref;
    var candidates := s.map_.candidates + [due - FrameTime(s.rate, s.index - ref)];
    if |candidates| < ANCHOR_TAKE then
      (s.(map_ := s.map_.(ref := ref, candidates := candidates)), NOTHING)
    else
      var sorted := Sorted(candidates);
      (s.(map_ := s.map_.(ref := ref, origin := sorted[|sorted| / 2], originIndex := ref,
                          candidates := [], anchored := true, slipMean := 0,
                          firstSum := 0, firstTaken := 0)),
       Verdict(due - p.at, 0, false))
  }

  function Slip(s: State, p: Point): int
    requires s.rate > 0
  {
    Due(s.rate, p) - (s.map_.origin + FrameTime(s.rate, s.index - s.map_.originIndex))
  }

  /** A slip no burst explains: the third in a row moves the mapping by all of it. */
  function FollowFar(s: State, slip: int): (State, Verdict) {
    var m := s.map_;
    if m.outside + 1 < SLIP_RUNS then (s.(map_ := m.(outside := m.outside + 1)), NOTHING)
    else (s.(map_ := m.(origin := m.origin + slip, firstSum := 0, firstTaken := 0,
                        slipMean := 0, outside := 0, slips := m.slips + 1),
             jump := true, queue := Unease(s.queue)),
          Verdict(0, slip, true))
  }

  /** A mapping that moved takes decided places back. */
  function WithMapping(s: State, m: Mapping, moved: bool, jump: bool): State {
    s.(map_ := m, jump := jump, queue := if moved then Unease(s.queue) else s.queue)
  }

  /** The first readings are averaged plainly, and the mapping jumps to the mean. */
  function Averaged(m: Mapping, slip: int): (Mapping, bool) {
    var sum, taken := m.firstSum + slip, m.firstTaken + 1;
    if taken < BURSTY_FIRST then (m.(outside := 0, firstSum := sum, firstTaken := taken), false)
    else (m.(outside := 0, firstSum := sum, firstTaken := taken, origin := m.origin + Quo(sum, BURSTY_FIRST)), true)
  }

  function FollowFirst(s: State, slip: int): State {
    var (m, moved) := Averaged(s.map_, slip);
    WithMapping(s, m, moved, s.jump || moved)
  }

  /** Later ones feed a running mean, and the mapping moves when that leaves the band. */
  function RunningMean(m: Mapping, slip: int): (Mapping, bool) {
    var mean := m.slipMean + Quo(slip - m.slipMean, BURSTY_OVER);
    if -BURSTY_BAND <= mean <= BURSTY_BAND then (m.(outside := 0, slipMean := mean), false)
    else (m.(outside := 0, slipMean := 0, origin := m.origin + mean), true)
  }

  function FollowMean(s: State, slip: int): State {
    var (m, moved) := RunningMean(s.map_, slip);
    WithMapping(s, m, moved, s.jump)
  }

  function Follow(s: State, slip: int): (State, Verdict) {
    if slip > BURSTY_SLIP || slip < -BURSTY_SLIP then FollowFar(s, slip)
    else if s.map_.firstTaken < BURSTY_FIRST then (FollowFirst(s, slip), NOTHING)
    else (FollowMean(s, slip), NOTHING)
  }

  /** A reading of an anchored stream on the speaker. */
  function Watch(s: State, p: Point): (State, Verdict)
    requires s.rate > 0
  {
    var m, slip := s.map_, Slip(s, p);
    if -ANCHOR_SLIP <= slip <= ANCHOR_SLIP then (s.(map_ := m.(outside := 0)), NOTHING)
    else if m.outside + 1 < SLIP_RUNS then (s.(map_ := m.(outside := m.outside + 1)), NOTHING)
    else (s.(map_ := m.(origin := Due(s.rate, p), originIndex := s.index, outside := 0,
                        slips := m.slips + 1),
             queue := Unease(s.queue)),
          Verdict(0, slip, true))
  }

  function Place(s: State, p: Point): (State, Verdict)
    requires s.rate > 0
  {
    var t := SwitchOutput(s, p.bursty);
    if !t.map_.anchored then Learn(t, p)
    else if p.bursty then Follow(t, Slip(t, p))
    else Watch(t, p)
  }

  // ---------- runs ----------

  datatype Op =
    | OpWrite(now: int, at: int, pcm: seq<Byte>)
    | OpRead(frames: nat)
    | OpFinish
    | OpResume
    | OpClear
    | OpClose
    | OpPlace(p: Point)

  predicate Ready(s: State) {
    s.rate > 0 && OffsetsFit(s.queue)
  }

  function Apply(s: State, op: Op): State
    requires Ready(s)
  {
    match op
    case OpWrite(now, at, pcm) => Write(s, now, at, pcm)
    case OpRead(frames) => Read(s, frames)
    case OpFinish => Finish(s)
    case OpResume => Resume(s)
    case OpClear => Discard(s)
    case OpClose => Close(s)
    case OpPlace(p) => Place(s, p).0
  }

  lemma WriteStaysReady(s: State, now: int, at: int, pcm: seq<Byte>)
    requires Ready(s)
    ensures Ready(Write(s, now, at, pcm)) && Write(s, now, at, pcm).rate == s.rate
  {
    if Refused(s, now, at, pcm) == None {
      var i := Slot(s.queue, at, |s.queue|);
      InsertedFits(s.queue, i, Fresh(at, Decode(pcm), |s.past.written|));
    }
  }

  lemma InsertedFits(queue: seq<Queued>, i: nat, c: Queued)
    requires i <= |queue| && OffsetsFit(queue) && Unfinished(c)
    ensures OffsetsFit(Inserted(queue, i, c))
  {
    var q := Inserted(queue, i, c);
    forall k | 0 <= k < |q| && k != i
      ensures Unfinished(q[k])
    {
      assert Unfinished(queue[if k < i then k else k - 1]);
    }
  }

  lemma ReadStaysReady(s: State, frames: nat)
    requires Ready(s)
    ensures Ready(Read(s, frames)) && Read(s, frames).rate == s.rate
  {
    FinishedStaysInBlock(ToFill(s, frames));
  }

  lemma ApplyStaysReady(s: State, op: Op)
    requires Ready(s)
    ensures Ready(Apply(s, op)) && Apply(s, op).rate == s.rate
  {
    hide Read, Write, Place;
    match op
    case OpRead(frames) => ReadStaysReady(s, frames);
    case OpPlace(p) => PlaceStaysReady(s, p);
    case OpWrite(now, at, pcm) => WriteStaysReady(s, now, at, pcm);
    case _ =>
  }

  /** A reading touches the mapping and which chunks are decided, nothing else. */
  lemma PlaceTouchesOnlyTheMapping(s: State, p: Point)
    requires s.rate > 0
    ensures OnlyTheMapping(s, Place(s, p).0)
  {
    hide Learn, Follow, Watch, Slip;
    var t := SwitchOutput(s, p.bursty);
    assert OnlyTheMapping(s, t);
    if t.map_.anchored {
      FollowTouchesOnlyTheMapping(t, Slip(t, p));
      WatchTouchesOnlyTheMapping(t, p);
    } else {
      LearnTouchesOnlyTheMapping(t, p);
    }
  }

  predicate OnlyTheMapping(s: State, t: State) {
    && t == s.(map_ := t.map_, jump := t.jump, queue := t.queue)
    && (t.queue == s.queue || t.queue == Unease(s.queue))
  }

  lemma LearnTouchesOnlyTheMapping(s: State, p: Point)
    requires s.rate > 0
    ensures OnlyTheMapping(s, Learn(s, p).0) && Learn(s, p).0.queue == s.queue
  {
  }

  lemma WatchTouchesOnlyTheMapping(s: State, p: Point)
    requires s.rate > 0
    ensures OnlyTheMapping(s, Watch(s, p).0)
  {
    hide Unease;
  }

  lemma FollowTouchesOnlyTheMapping(s: State, slip: int)
    ensures OnlyTheMapping(s, Follow(s, slip).0)
  {
    FollowFarTouchesOnlyTheMapping(s, slip);
    FollowNearTouchesOnlyTheMapping(s, slip);
    hide FollowFar, FollowFirst, FollowMean;
  }

  lemma FollowFarTouchesOnlyTheMapping(s: State, slip: int)
    ensures OnlyTheMapping(s, FollowFar(s, slip).0)
  {
    hide Unease;
  }

  lemma FollowNearTouchesOnlyTheMapping(s: State, slip: int)
    ensures OnlyTheMapping(s, FollowFirst(s, slip)) && OnlyTheMapping(s, FollowMean(s, slip))
  {
    hide Unease;
  }

  lemma PlaceStaysReady(s: State, p: Point)
    requires Ready(s)
    ensures Ready(Place(s, p).0) && Place(s, p).0.rate == s.rate
  {
    PlaceTouchesOnlyTheMapping(s, p);
  }

  function Run(s: State, ops: seq<Op>): State
    requires Ready(s)
    decreases |ops|
  {
    if ops == [] then s
    else
      ApplyStaysReady(s, ops[0]);
      Run(Apply(s, ops[0]), ops[1..])
  }
}
