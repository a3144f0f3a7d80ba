/**
 The audio stream itself: the fields, the lock regions and the loops of
 internal/audio/stream.go, each shown to compute what StreamState.dfy says.
 `past` is history for the proofs, and `writes` numbers the chunks it labels.
 */
module AudioStream {
  import opened GoInt
  import opened FrameClock
  import opened StreamModel
  import opened StreamState
  import opened StreamFill
  import Runs = StreamRuns
  import opened Wrappers

  /** Whether the stream still takes audio, and what it threw away when it was ended. */
  datatype Life = Life(done: bool, ended: int, spent: bool, closed: bool)

  /** How the next chunk is to be eased onto the mapping. */
  datatype Easing = Easing(began: bool, jump: bool, smooth: int, easedAt: int)

  /** What the stream did with its frames. */
  datatype Counts = Counts(placed: int, silence: int, late: int, eased: int)

  class Stream {
    const rate: int

    var queue: seq<Queued>
    var held: int
    var index: int
    var lastOut: Frame
    var life: Life
    var mapping: Mapping
    var ease: Easing
    var count: Counts

    var writes: nat
    ghost var past: History

    ghost function Abs(): State
      reads this
    {
      State(rate, queue, held, index, life.done, life.ended, life.spent, life.closed,
            mapping, ease.jump, count.placed, count.silence, count.late, count.eased,
            ease.began, lastOut, ease.smooth, ease.easedAt, past)
    }

    /** The history matches the counters, and no chunk is played past its end. */
    ghost predicate Fits()
      reads this
    {
      && KnownRate(rate) && OffsetsFit(queue)
      && 0 <= index == |past.log| && writes == |past.written|
    }

    /** Every invariant of a stream's runs holds of it. */
    ghost predicate Valid()
      reads this
    {
      Fits() && Runs.Valid(Abs())
    }

    constructor (rate: int)
      requires KnownRate(rate)
      ensures Valid() && Abs() == NewState(rate)
    {
      hide Runs.Valid;
      this.rate := rate;
      queue, held, index, lastOut := [], 0, 0, SILENT;
      life, mapping := Life(false, 0, false, false), NewMapping();
      ease, count := Easing(false, false, 0, 0), Counts(0, 0, 0, 0);
      writes, past := 0, History([], 0, 0, 0, 0, []);
      new;
      Runs.NewStateIsValid(rate);
      assert Abs() == NewState(rate);
    }

    method Write(now: int, at: int, pcm: seq<Byte>) returns (refusal: Option<Refusal>)
      requires Valid()
      modifies this
      ensures Valid()
      ensures refusal == Refused(old(Abs()), now, at, pcm)
      ensures Abs() == StreamState.Write(old(Abs()), now, at, pcm)
    {
      hide Runs.Valid;
      Runs.ApplyKeepsValid(Abs(), OpWrite(now, at, pcm));
      ApplyStaysReady(Abs(), OpWrite(now, at, pcm));
      if |pcm| % FRAME_BYTES != 0 { return Some(PartialFrame); }
      if life.closed || life.spent { return Some(StreamClosed); }
      if life.done { return Some(StreamDone); }
      var due := at - now;
      if due > STREAM_AHEAD || due < -STREAM_AHEAD { return Some(TooFarOff); }
      var frames := |pcm| / FRAME_BYTES;
      if held + frames > FrameCount(rate, STREAM_HOLD) { return Some(TooMuchHeld); }
      if |queue| >= STREAM_CHUNKS { return Some(TooManyChunks); }
      Enqueue(at, Decode(pcm));
      return None;
    }

    /** Puts a chunk in the queue by its due time, behind one already being heard. */
    method Enqueue(at: int, pcm: seq<Frame>)
      requires writes == |past.written|
      modifies `queue, `held, `writes, `past
      ensures Abs() == Accept(old(Abs()), at, pcm) && writes == |past.written|
    {
      var i := |queue|;
      while i > 0 && queue[i - 1].at > at && queue[i - 1].off == 0
        invariant 0 <= i <= |queue|
        invariant Slot(queue, at, |queue|) == Slot(queue, at, i)
      {
        i := i - 1;
      }
      queue := Inserted(queue, i, Fresh(at, pcm, writes));
      held := held + |pcm|;
      writes := writes + 1;
      past := past.(written := past.written + [Written(at, pcm)]);
    }

    /** Throws away what is queued, and says how many frames that was. */
    method Discard() returns (was: int)
      modifies `queue, `held, `ease, `past
      ensures was == old(held) && Abs() == StreamState.Discard(old(Abs()))
    {
      was := held;
      queue, held := [], 0;
      ease := ease.(began := false, smooth := 0, easedAt := 0);
      past := past.(discarded := past.discarded + was);
    }

    method Finish()
      requires Valid()
      modifies this
      ensures Valid() && Abs() == StreamState.Finish(old(Abs()))
    {
      hide Runs.Valid;
      Runs.ApplyKeepsValid(Abs(), OpFinish);
      if life.closed || life.spent || life.done { return; }
      life := life.(done := true);
      var was := Discard();
      life := life.(ended := life.ended + was);
    }

    method Resume() returns (ok: bool)
      requires Valid()
      modifies this
      ensures Valid() && Abs() == StreamState.Resume(old(Abs()))
      ensures ok == !(old(life.closed) || old(life.spent))
    {
      hide Runs.Valid;
      Runs.ApplyKeepsValid(Abs(), OpResume);
      if life.closed || life.spent { return false; }
      life := life.(done := false);
      return true;
    }

    method Clear()
      requires Valid()
      modifies this
      ensures Valid() && Abs() == StreamState.Discard(old(Abs()))
    {
      hide Runs.Valid;
      Runs.ApplyKeepsValid(Abs(), OpClear);
      var _ := Discard();
    }

    method Close()
      requires Valid()
      modifies this
      ensures Valid() && Abs() == StreamState.Close(old(Abs()))
    {
      hide Runs.Valid;
      Runs.ApplyKeepsValid(Abs(), OpClose);
      life := life.(closed := true);
    }

    // ---------- filling a block ----------

    /** Where `fill` stands, with what it has counted so far. */
    ghost function Filling(frames: nat, pos: nat, filled: nat, blended: nat, trimmed: nat): Fill
      reads this
    {
      StreamModel.Fill(rate, index, frames, mapping.origin, mapping.originIndex, queue, held,
                       count.late, ease.began, ease.jump, ease.smooth, ease.easedAt, lastOut,
                       pos, filled, blended, trimmed, past.log)
    }

    method Drop(frames: int)
      requires queue != []
      modifies `count, `held, `queue
      ensures count == old(count).(late := old(count).late + frames)
      ensures held == old(held) - frames && queue == old(queue)[1..]
      ensures held + count.late == old(held + count.late)
      ensures frames == old(|queue[0].pcm| - queue[0].off) ==> held - Unread(queue) == old(held - Unread(queue))
    {
      count := count.(late := count.late + frames);
      held := held - frames;
      queue := queue[1..];
    }

    method Trim(frames: nat)
      requires queue != []
      modifies `held, `queue
      ensures held == old(held) - frames
      ensures queue == old(queue)[0 := old(queue)[0].(off := old(queue)[0].off + frames)]
      ensures held - Unread(queue) == old(held - Unread(queue))
    {
      ghost var rest := queue[1..];
      queue := queue[0 := queue[0].(off := queue[0].off + frames)];
      assert queue[1..] == rest;
      held := held - frames;
    }

    method Skip(frames: nat)
      requires queue != []
      modifies `held, `queue, `count
      ensures held == old(held) - frames
      ensures count == old(count).(late := old(count).late + frames)
      ensures queue == old(queue)[0 := old(queue)[0].(off := old(queue)[0].off + frames)]
      ensures held + count.late == old(held + count.late) && held - Unread(queue) == old(held - Unread(queue))
    {
      ghost var rest := queue[1..];
      queue := queue[0 := queue[0].(off := queue[0].off + frames)];
      assert queue[1..] == rest;
      count := count.(late := count.late + frames);
      held := held - frames;
    }

    /** Gives the head its place. */
    method Settle(pos: nat, ghost f: Fill)
      requires f.Working() && f == Filling(f.frames, pos, f.filled, f.blended, f.trimmed)
      requires !queue[0].eased
      modifies `queue, `ease
      ensures Filling(f.frames, pos, f.filled, f.blended, f.trimmed) == Decide(f)
    {
      hide FrameCount, Smoothed, Ease;
      var c := queue[0];
      var want := index + pos;
      var snap := FrameCount(rate, SNAP_ABOVE);
      var due := mapping.originIndex + FrameCount(rate, c.at - mapping.origin);
      var err := due - want;
      var step, smooth := 0, Smoothed(ease.smooth, err);
      var easedAt, jump := ease.easedAt, ease.jump;
      if index - easedAt >= EASE_APART {
        step := Ease(rate, smooth / SMOOTH_ONE);
      }
      if step != 0 {
        easedAt := index;
      }
      if !ease.began || jump || err > snap || err < -snap {
        step, smooth := err, 0;
        jump := jump && err <= -|c.pcm|;
      }
      ease := Easing(ease.began, jump, smooth, easedAt);
      queue := queue[0 := c.(eased := true, soft := step != err, place := want + step, due := due)];
    }

    /** Every frame put out so far is in the block, and the rest of it is silence. */
    ghost predicate BlockIs(block: array<Frame>, pos: nat)
      reads this, block
    {
      && 0 <= index && |past.log| == index + pos && pos <= block.Length
      && (forall i | 0 <= i < pos :: block[i] == past.log[index + i].Value())
      && (forall i | pos <= i < block.Length :: block[i] == SILENT)
    }

    /** The head is `n` frames away: a soft one is ramped up to, a hard one waited for. */
    method Wait(block: array<Frame>, pos: nat, n: nat, blended: nat, ghost f: Fill)
      returns (blended': nat)
      requires f.Working() && f == Filling(block.Length, pos, f.filled, blended, f.trimmed)
      requires queue[0].off < |queue[0].pcm| && BlockIs(block, pos) && pos + n <= block.Length
      modifies `past, block
      ensures Filling(block.Length, pos + n, f.filled, blended', f.trimmed) == WaitForHead(f, n)
      ensures past == old(past).(log := past.log) && BlockIs(block, pos + n)
    {
      var c := queue[0];
      if c.soft {
        Blend(block, pos, n, lastOut, c.pcm[c.off]);
        past := past.(log := past.log + RampCells(lastOut, c.pcm[c.off], n));
        return blended + n;
      } else {
        past := past.(log := past.log + seq(n, _ => Gap));
        return blended;
      }
    }

    /** Puts the next `n` frames of a chunk in the block, the first smoothed after a soft trim. */
    static method Sound(block: array<Frame>, pos: nat, n: nat, c: Queued, lastOut: Frame)
      requires 0 < n && c.off + n <= |c.pcm| && pos + n <= block.Length
      modifies block
      ensures var cells := PlayedCells(c, n, lastOut);
        forall i | 0 <= i < block.Length ::
          block[i] == if pos <= i < pos + n then cells[i - pos].Value() else old(block[i])
    {
      Copy(block, pos, c.pcm, c.off, n);
      if c.soft && c.seam {
        block[pos] := Mean(lastOut, block[pos]);
      }
    }

    /** The next `n` frames of the head go out. */
    method PlayOut(block: array<Frame>, pos: nat, n: nat, ghost f: Fill)
      requires f.Working() && f == Filling(block.Length, pos, f.filled, f.blended, f.trimmed)
      requires 0 < n && queue[0].off + n <= |queue[0].pcm|
      requires BlockIs(block, pos) && pos + n <= block.Length
      modifies `queue, `held, `lastOut, `ease, `past, block
      ensures Filling(block.Length, pos + n, f.filled + n, f.blended, f.trimmed) == PlayHead(f, n)
      ensures past == old(past).(log := past.log) && BlockIs(block, pos + n)
    {
      hide PlayedCells;
      var c := queue[0];
      Sound(block, pos, n, c, lastOut);
      past := past.(log := past.log + PlayedCells(c, n, lastOut));
      lastOut := block[pos + n - 1];
      ease := ease.(began := true);
      Use(n);
    }

    /** The head is `n` frames further on, and gone once it is through. */
    method Use(n: nat)
      requires queue != [] && queue[0].off + n <= |queue[0].pcm|
      modifies `queue, `held
      ensures held == old(held) - n
      ensures var c := old(queue)[0];
        queue == if c.off + n == |c.pcm| then old(queue)[1..]
                 else old(queue)[0 := c.(off := c.off + n, seam := if c.soft then false else c.seam)]
      ensures held - Unread(queue) == old(held - Unread(queue))
    {
      var c := queue[0];
      ghost var rest := queue[1..];
      held := held - n;
      if c.off + n == |c.pcm| {
        queue := queue[1..];
      } else {
        assert queue[0 := c.(off := c.off + n, seam := if c.soft then false else c.seam)][1..] == rest;
        queue := queue[0 := c.(off := c.off + n, seam := if c.soft then false else c.seam)];
      }
    }

    /** The head is entirely in the past. */
    method Miss(pos: nat, ghost f: Fill)
      requires f.Working() && f == Filling(f.frames, pos, f.filled, f.blended, f.trimmed)
      requires queue[0].off <= |queue[0].pcm|
      modifies `queue, `held, `count
      ensures Filling(f.frames, pos, f.filled, f.blended, f.trimmed) == DropHead(f)
      ensures count == old(count).(late := count.late)
    {
      Drop(|queue[0].pcm| - queue[0].off);
    }

    /** The first `n` frames of the head are in the past. */
    method Cut(pos: nat, n: nat, trimmed: nat, ghost f: Fill) returns (trimmed': nat)
      requires f.Working() && f == Filling(f.frames, pos, f.filled, f.blended, trimmed)
      modifies `queue, `held, `count
      ensures Filling(f.frames, pos, f.filled, f.blended, trimmed') == CutHead(f, n)
      ensures count == old(count).(late := count.late)
    {
      var c := queue[0];
      queue := queue[0 := c.(seam := true)];
      if c.soft {
        trimmed' := trimmed + n;
        Trim(n);
      } else {
        trimmed' := trimmed;
        Skip(n);
      }
    }

    /** One turn of the loop once the head has its place. */
    method Advance(block: array<Frame>, pos: nat, filled: nat, blended: nat, trimmed: nat, ghost f: Fill)
      returns (pos': nat, filled': nat, blended': nat, trimmed': nat)
      requires f.Working() && f == Filling(block.Length, pos, filled, blended, trimmed)
      requires queue[0].off < |queue[0].pcm| && BlockIs(block, pos)
      modifies `queue, `held, `lastOut, `ease, `count, `past, block
      ensures Turned(f, Filling(block.Length, pos', filled', blended', trimmed'))
      ensures past == old(past).(log := past.log) && count == old(count).(late := count.late)
      ensures BlockIs(block, pos')
    {
      hide DropHead, CutHead, WaitForHead, PlayHead;
      pos', filled', blended', trimmed' := pos, filled, blended, trimmed;
      var c := queue[0];
      var want := index + pos;
      var start := c.place + c.off;
      var left := |c.pcm| - c.off;
      if start + left <= want {
        Miss(pos, f);
      } else if start < want {
        trimmed' := Cut(pos, want - start, trimmed, f);
      } else if start > want {
        var n := Min(start - want, block.Length - pos);
        blended' := Wait(block, pos, n, blended, f);
        pos' := pos + n;
      } else {
        var n := Min(block.Length - pos, left);
        PlayOut(block, pos, n, f);
        pos', filled' := pos + n, filled + n;
      }
    }

    /** One turn of the loop of `fill`. */
    method Turn(block: array<Frame>, pos: nat, filled: nat, blended: nat, trimmed: nat, ghost f: Fill)
      returns (pos': nat, filled': nat, blended': nat, trimmed': nat)
      requires f.Working() && f == Filling(block.Length, pos, filled, blended, trimmed)
      requires OffsetsFit(f.queue) && BlockIs(block, pos)
      modifies `queue, `held, `lastOut, `ease, `count, `past, block
      ensures Filling(block.Length, pos', filled', blended', trimmed') == Step(f)
      ensures past == old(past).(log := past.log) && count == old(count).(late := count.late)
      ensures BlockIs(block, pos')
    {
      hide Decide, Placed, Turned, DropHead, CutHead, WaitForHead, PlayHead;
      StepMakesProgress(f);
      if |queue[0].pcm| == 0 {
        queue := queue[1..];
        return pos, filled, blended, trimmed;
      }
      DecideKeeps(f);
      if !queue[0].eased {
        Settle(pos, f);
      }
      pos', filled', blended', trimmed' := Advance(block, pos, filled, blended, trimmed, Decide(f));
      PlacedIsTheTurn(Decide(f), Filling(block.Length, pos', filled', blended', trimmed'));
    }

    method Fill(block: array<Frame>) returns (filled: nat, blended: nat, trimmed: nat)
      requires Fits() && mapping.anchored
      requires forall i | 0 <= i < block.Length :: block[i] == SILENT
      modifies `queue, `held, `lastOut, `ease, `count, `past, block
      ensures Filling(block.Length, FinishedInBlock(ToFill(old(Abs()), block.Length)).pos, filled, blended, trimmed)
              == RunDry(FinishedInBlock(ToFill(old(Abs()), block.Length)))
      ensures past == old(past).(log := past.log) && count == old(count).(late := count.late)
      ensures BlockIs(block, block.Length) && OffsetsFit(queue)
    {
      hide Step;
      ghost var first := ToFill(Abs(), block.Length);
      FinishedStaysInBlock(first);
      var pos: nat := 0;
      filled, blended, trimmed := 0, 0, 0;
      ghost var f := first;
      while pos < block.Length && queue != []
        invariant f == Filling(block.Length, pos, filled, blended, trimmed)
        invariant OffsetsFit(f.queue) && f.pos <= f.frames && Finished(f) == Finished(first)
        invariant past == old(past).(log := past.log) && count == old(count).(late := count.late)
        invariant BlockIs(block, pos)
        decreases |f.queue|, f.frames - f.pos, HeadLeft(f)
      {
        StepMakesProgress(f);
        pos, filled, blended, trimmed := Turn(block, pos, filled, blended, trimmed, f);
        f := Step(f);
      }
      if pos < block.Length {
        lastOut := SILENT;
        past := past.(log := past.log + seq(block.Length - pos, _ => Dry));
      }
    }

    /** What a block adds to the totals and to the timeline. */
    method Tally(frames: nat, filled: nat, blended: nat, trimmed: nat)
      modifies `count, `index
      ensures count == Counts(old(count).placed + filled,
                              old(count).silence + (frames - filled - blended),
                              old(count).late, old(count).eased + blended + trimmed)
      ensures index == old(index) + frames
    {
      count := Counts(count.placed + filled, count.silence + (frames - filled - blended),
                      count.late, count.eased + blended + trimmed);
      index := index + frames;
    }

    method ReadPlaced(block: array<Frame>)
      requires Fits() && mapping.anchored
      requires forall i | 0 <= i < block.Length :: block[i] == SILENT
      modifies this, block
      ensures Fits() && index == old(index) + block.Length
      ensures Abs() == FromFill(old(Abs()), RunDry(FinishedInBlock(ToFill(old(Abs()), block.Length))))
      ensures forall i | 0 <= i < block.Length :: block[i] == past.log[old(index) + i].Value()
    {
      hide FinishedInBlock, RunDry;
      var filled, blended, trimmed := Fill(block);
      past := past.(trimmed := past.trimmed + trimmed, blended := past.blended + blended,
                    blind := if block.Length > 0 then 0 else past.blind);
      Tally(block.Length, filled, blended, trimmed);
    }

    method ReadUnplaced(block: array<Frame>)
      requires Fits() && forall i | 0 <= i < block.Length :: block[i] == SILENT
      modifies this
      ensures Fits() && index == old(index) + block.Length
      ensures Abs() == ReadBlind(old(Abs()), block.Length)
      ensures forall i | 0 <= i < block.Length :: block[i] == past.log[old(index) + i].Value()
    {
      past := past.(blind := past.blind + block.Length,
                    log := past.log + seq(block.Length, _ => Blind));
      Tally(block.Length, 0, 0, 0);
    }

    /** The next block: audio, or silence before the stream knows where it is. */
    method Read(block: array<Frame>) returns (n: nat, more: bool)
      requires Valid()
      modifies this, block
      ensures Valid() && Abs() == StreamState.Read(old(Abs()), block.Length)
      ensures more == Reading(old(Abs())) && n == if more then block.Length else 0
      ensures more ==> index == old(index) + block.Length
      ensures more ==> forall i | 0 <= i < block.Length :: block[i] == past.log[old(index) + i].Value()
      ensures !more ==> block[..] == old(block[..])
    {
      hide Runs.Valid;
      Runs.ApplyKeepsValid(Abs(), OpRead(block.Length));
      hide FinishedInBlock, RunDry, FromFill, ToFill, ReadBlind;
      if life.closed || life.spent { return 0, false; }
      if life.done {
        life := life.(spent := true);
        return 0, false;
      }
      Hush(block);
      if mapping.anchored {
        ReadPlaced(block);
      } else {
        ReadUnplaced(block);
      }
      return block.Length, true;
    }

    // ---------- learning where the player is ----------

    method Unease()
      modifies `queue
      ensures queue == StreamState.Unease(old(queue))
    {
      ghost var before := queue;
      for i := 0 to |queue|
        invariant |queue| == |before|
        invariant forall k | 0 <= k < |queue| ::
                    queue[k] == if k < i && before[k].off == 0 then before[k].(eased := false) else before[k]
      {
        if queue[i].off == 0 {
          queue := queue[i := queue[i].(eased := false)];
        }
      }
    }

    method Place(p: Point) returns (verdict: Verdict)
      requires Valid()
      modifies `queue, `mapping, `ease
      ensures Valid() && (Abs(), verdict) == StreamState.Place(old(Abs()), p)
    {
      hide Runs.Valid;
      Runs.ApplyKeepsValid(Abs(), OpPlace(p));
      PlaceStaysReady(Abs(), p);
      var due := p.at + FrameTime(rate, p.ahead);
      SwitchTo(p.bursty);
      if !mapping.anchored {
        verdict := Learn(due, p);
        return;
      }
      var slip := due - (mapping.origin + FrameTime(rate, index - mapping.originIndex));
      if p.bursty {
        verdict := Follow(slip);
      } else {
        verdict := Watch(due, slip, p);
      }
    }

    method SwitchTo(bursty: bool)
      modifies `queue, `mapping
      ensures Abs() == SwitchOutput(old(Abs()), bursty)
    {
      if bursty != mapping.bursty {
        mapping := mapping.(anchored := false, candidates := [], outside := 0);
        Unease();
      }
      mapping := mapping.(bursty := bursty);
    }

    method Learn(due: int, p: Point) returns (verdict: Verdict)
      requires rate > 0 && due == Due(rate, p)
      modifies `mapping
      ensures (Abs(), verdict) == StreamState.Learn(old(Abs()), p)
    {
      if mapping.candidates == [] {
        mapping := mapping.(ref := index);
      }
      mapping := mapping.(candidates :=
        mapping.candidates + [due - FrameTime(rate, index - mapping.ref)]);
      if |mapping.candidates| < ANCHOR_TAKE { return NOTHING; }
      var sorted := Sorted(mapping.candidates);
      mapping := mapping.(origin := sorted[|sorted| / 2], originIndex := mapping.ref,
                          candidates := [], anchored := true, slipMean := 0,
                          firstSum := 0, firstTaken := 0);
      return Verdict(due - p.at, 0, false);
    }

    method Watch(due: int, slip: int, ghost p: Point) returns (verdict: Verdict)
      requires rate > 0 && due == Due(rate, p) && slip == Slip(Abs(), p)
      modifies `queue, `mapping
      ensures (Abs(), verdict) == StreamState.Watch(old(Abs()), p)
    {
      if slip <= ANCHOR_SLIP && slip >= -ANCHOR_SLIP {
        mapping := mapping.(outside := 0);
        return NOTHING;
      }
      mapping := mapping.(outside := mapping.outside + 1);
      if mapping.outside < SLIP_RUNS { return NOTHING; }
      mapping := mapping.(origin := due, originIndex := index);
      Unease();
      mapping := mapping.(outside := 0, slips := mapping.slips + 1);
      return Verdict(0, slip, true);
    }

    method Follow(slip: int) returns (verdict: Verdict)
      modifies `queue, `mapping, `ease
      ensures (Abs(), verdict) == StreamState.Follow(old(Abs()), slip)
    {
      if slip > BURSTY_SLIP || slip < -BURSTY_SLIP {
        mapping := mapping.(outside := mapping.outside + 1);
        if mapping.outside < SLIP_RUNS { return NOTHING; }
        mapping := mapping.(origin := mapping.origin + slip, firstSum := 0, firstTaken := 0,
                            slipMean := 0, outside := 0, slips := mapping.slips + 1);
        ease := ease.(jump := true);
        Unease();
        return Verdict(0, slip, true);
      }
      mapping := mapping.(outside := 0);
      if mapping.firstTaken < BURSTY_FIRST {
        mapping := mapping.(firstSum := mapping.firstSum + slip, firstTaken := mapping.firstTaken + 1);
        if mapping.firstTaken < BURSTY_FIRST { return NOTHING; }
        mapping := mapping.(origin := mapping.origin + Quo(mapping.firstSum, BURSTY_FIRST));
        ease := ease.(jump := true);
        Unease();
        return NOTHING;
      }
      mapping := mapping.(slipMean := mapping.slipMean + Quo(slip - mapping.slipMean, BURSTY_OVER));
      if mapping.slipMean <= BURSTY_BAND && mapping.slipMean >= -BURSTY_BAND { return NOTHING; }
      mapping := mapping.(origin := mapping.origin + mapping.slipMean, slipMean := 0);
      Unease();
      return NOTHING;
    }
  }

  method Hush(block: array<Frame>)
    modifies block
    ensures forall i | 0 <= i < block.Length :: block[i] == SILENT
  {
    for i := 0 to block.Length
      invariant forall k | 0 <= k < i :: block[k] == SILENT
    {
      block[i] := SILENT;
    }
  }

  /** Writes a ramp over `n` frames of a block. */
  method Blend(block: array<Frame>, pos: nat, n: nat, from: Frame, to: Frame)
    requires pos + n <= block.Length
    modifies block
    ensures forall i | 0 <= i < block.Length ::
              block[i] == if pos <= i < pos + n then RampFrame(from, to, i - pos, n) else old(block[i])
  {
    for i := 0 to n
      invariant forall k | 0 <= k < block.Length ::
                  block[k] == if pos <= k < pos + i then RampFrame(from, to, k - pos, n) else old(block[k])
    {
      block[pos + i] := RampFrame(from, to, i, n);
    }
  }

  /** Copies `n` frames of a chunk into a block. */
  method Copy(block: array<Frame>, pos: nat, pcm: seq<Frame>, off: nat, n: nat)
    requires pos + n <= block.Length && off + n <= |pcm|
    modifies block
    ensures forall i | 0 <= i < block.Length ::
              block[i] == if pos <= i < pos + n then pcm[off + i - pos] else old(block[i])
  {
    for i := 0 to n
      invariant forall k | 0 <= k < block.Length ::
                  block[k] == if pos <= k < pos + i then pcm[off + k - pos] else old(block[k])
    {
      block[pos + i] := pcm[off + i];
    }
  }
}
