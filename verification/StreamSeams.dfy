/**
 Where `fill` corrects the timing of a stream and what those corrections sound
 like (internal/audio/stream.go:85-100, 331-403): how far a soft correction
 moves, how often one is made, and which frames each join lies between.
 */
module StreamSeams {
  import opened GoInt
  import opened FrameClock
  import opened StreamModel
  import opened StreamState
  import opened StreamFill

  // ---------- how far and how often ----------

  /** At both rates of the player a soft correction is one frame at most. */
  lemma EaseIsOneFrame(rate: int, err: int)
    requires KnownRate(rate)
    ensures -1 <= Ease(rate, err) <= 1
  {
    assert FrameCount(48000, SOFT_STEP) == 1 && FrameCount(44100, SOFT_STEP) == 0;
    assert FrameCount(48000, DEAD_BAND) == 240 && FrameCount(44100, DEAD_BAND) == 220;
  }

  /** How many frames the stream has fallen behind the place of its head. */
  function Lag(f: Fill): int {
    if f.queue != [] && f.queue[0].eased && f.queue[0].off > 0
    then f.Want() - (f.queue[0].place + f.queue[0].off)
    else 0
  }

  /**
   Between two turns of the loop: a decided head is due no earlier than now, a
   part-played or a soft one exactly now, and the label of an unheard one is
   where its timestamp falls under the mapping in force.
   */
  predicate InStep(f: Fill) {
    f.rate > 0 && f.queue != [] && f.queue[0].eased ==>
      var c := f.queue[0];
      && c.place + c.off >= f.Want()
      && (c.off > 0 || c.soft ==> c.place + c.off == f.Want())
      && (c.off == 0 ==> c.due == f.FrameAt(c.at))
  }

  /** Soft frames so far, and one more if the block may still make a correction. */
  function Corrections(f: Fill): int {
    f.blended + f.trimmed + if f.index - f.easedAt >= EASE_APART then 1 else 0
  }

  /** A decision asks for at most one frame of soft correction, and spends the block's. */
  lemma DecideMovesOneFrame(f: Fill)
    requires f.Working() && KnownRate(f.rate) && InStep(f)
    ensures var g := Decide(f); var c := g.queue[0];
      && c.eased
      && (c.soft && !f.queue[0].eased ==>
            && -1 <= c.place - f.Want() <= 1
            && (c.place != f.Want() ==> Corrections(g) == Corrections(f) - 1))
      && Corrections(g) <= Corrections(f)
      && (!f.queue[0].eased ==> c.due == f.FrameAt(c.at) && c.off == f.queue[0].off)
      && (f.queue[0].eased ==> g == f)
  {
    if !f.queue[0].eased {
      var err := f.FrameAt(f.queue[0].at) - f.Want();
      EaseIsOneFrame(f.rate, Smoothed(f.smooth, err) / SMOOTH_ONE);
    }
  }

  /** Every turn leaves the head in step and the number of corrections within bounds. */
  lemma StepStaysInStep(f: Fill, written: seq<Written>)
    requires f.Working() && KnownRate(f.rate) && FillOk(f, written) && InStep(f)
    ensures InStep(Step(f)) && Corrections(Step(f)) <= Corrections(f)
  {
    if |f.queue[0].pcm| == 0 {
      assert f.queue[1..] != [] ==> Untouched(f.queue[1]);
    } else {
      DecideMovesOneFrame(f);
      DecideKeeps(f);
      DecideKeepsOk(f, written);
      assert f.queue[0].eased || f.queue[0].off == 0;
      PlacedStaysInStep(Decide(f), written, Corrections(f));
    }
  }

  /** A decided head the stream has not passed, and the soft frames it still asks for. */
  predicate Within(f: Fill, bound: int)
    requires f.Working()
  {
    var c := f.queue[0];
    && c.eased && c.off < |c.pcm|
    && (c.off > 0 ==> c.place + c.off == f.Want())
    && (c.off == 0 ==> c.due == f.FrameAt(c.at))
    && (c.soft ==> -1 <= c.place + c.off - f.Want() <= 1
                   && Abs(c.place + c.off - f.Want()) + Corrections(f) <= bound)
    && Corrections(f) <= bound
  }

  lemma DropStaysInStep(f: Fill, written: seq<Written>, bound: int)
    requires f.Working() && FillOk(f, written) && Within(f, bound)
    ensures InStep(DropHead(f)) && Corrections(DropHead(f)) <= bound
  {
    assert f.queue[1..] != [] ==> Untouched(f.queue[1]);
  }

  lemma CutStaysInStep(f: Fill, written: seq<Written>, bound: int)
    requires f.Working() && FillOk(f, written) && Within(f, bound)
    requires f.queue[0].place + f.queue[0].off < f.Want()
    ensures var g := CutHead(f, f.Want() - f.queue[0].place - f.queue[0].off);
            InStep(g) && Corrections(g) <= bound
  {
  }

  lemma WaitStaysInStep(f: Fill, written: seq<Written>, bound: int)
    requires f.Working() && FillOk(f, written) && Within(f, bound)
    requires f.queue[0].place + f.queue[0].off > f.Want()
    ensures var g := WaitForHead(f, Min(f.queue[0].place + f.queue[0].off - f.Want(), f.frames - f.pos));
            InStep(g) && Corrections(g) <= bound
  {
  }

  lemma PlayStaysInStep(f: Fill, written: seq<Written>, bound: int)
    requires f.Working() && FillOk(f, written) && Within(f, bound)
    requires f.queue[0].place + f.queue[0].off == f.Want()
    ensures var g := PlayHead(f, Min(f.frames - f.pos, |f.queue[0].pcm| - f.queue[0].off));
            InStep(g) && Corrections(g) <= bound
  {
    assert f.queue[1..] != [] ==> Untouched(f.queue[1]);
  }

  lemma PlacedStaysInStep(f: Fill, written: seq<Written>, bound: int)
    requires f.Working() && FillOk(f, written) && Within(f, bound)
    ensures InStep(Placed(f)) && Corrections(Placed(f)) <= bound
  {
    hide Heard, Shape, Unread, DropHead, CutHead, WaitForHead, PlayHead, InStep, Corrections;
    var c, want := f.queue[0], f.Want();
    var start, left := c.place + c.off, |c.pcm| - c.off;
    if start + left <= want {
      DropStaysInStep(f, written, bound);
      assert Placed(f) == DropHead(f);
    } else if start < want {
      CutStaysInStep(f, written, bound);
      assert Placed(f) == CutHead(f, want - start);
    } else if start > want {
      WaitStaysInStep(f, written, bound);
      assert Placed(f) == WaitForHead(f, Min(start - want, f.frames - f.pos));
    } else {
      PlayStaysInStep(f, written, bound);
      assert Placed(f) == PlayHead(f, Min(f.frames - f.pos, left));
    }
  }

  /**
   A head left behind by silence that had no mapping is caught up in one turn, by
   exactly the frames it fell behind.
   */
  lemma StepCatchesUp(f: Fill, written: seq<Written>)
    requires f.Working() && KnownRate(f.rate) && FillOk(f, written) && Lag(f) > 0
    ensures InStep(Step(f)) && Corrections(Step(f)) <= Corrections(f) + Lag(f)
  {
    assert f.queue[1..] != [] ==> Untouched(f.queue[1]);
    var c := f.queue[0];
    var left := |c.pcm| - c.off;
    if left <= Lag(f) {
      assert Step(f) == DropHead(f);
    } else {
      assert Step(f) == CutHead(f, Lag(f));
    }
  }

  lemma FinishedStaysInStep(f: Fill, written: seq<Written>)
    requires KnownRate(f.rate) && FillOk(f, written) && InStep(f)
    ensures InStep(Finished(f)) && Corrections(Finished(f)) <= Corrections(f)
    decreases |f.queue|, f.frames - f.pos, HeadLeft(f)
  {
    if f.pos < f.frames && f.queue != [] {
      StepMakesProgress(f);
      StepKeeps(f, written);
      StepStaysInStep(f, written);
      FinishedStaysInStep(Step(f), written);
    }
  }

  /** A block makes one soft correction at most, beyond catching up a lagging head. */
  lemma FinishedCorrectsOnce(f: Fill, written: seq<Written>)
    requires KnownRate(f.rate) && FillOk(f, written)
    requires Lag(f) > 0 || InStep(f)
    requires f.pos == 0 && f.frames > 0
    ensures InStep(Finished(f)) && Corrections(Finished(f)) <= Corrections(f) + Lag(f)
  {
    if Lag(f) > 0 {
      StepMakesProgress(f);
      StepKeeps(f, written);
      StepCatchesUp(f, written);
      FinishedStaysInStep(Step(f), written);
    } else {
      FinishedStaysInStep(f, written);
    }
  }
}
