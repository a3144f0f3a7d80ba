/**
 Which frames a ramp and a smoothed frame join (internal/audio/stream.go:70-79,
 331-403). They start from the frame before them wherever that is in the same block,
 and at the start of a block exactly when the stream still ends on the frame it last
 sounded. Inside its block a ramp leads to the frame after it; StreamLeads.dfy is
 about one that ends its block.
 */
module StreamRamps {
  import opened GoInt
  import opened StreamModel
  import opened StreamState
  import opened StreamFill
  import opened StreamSeams
  import opened StreamJoins
  import opened StreamRuns

  // ---------- inside a block ----------

  /** When the block so far does not end on audio, the head goes on exactly here, and is not smoothed. */
  predicate Poised(f: Fill) {
    |f.log| > f.index >= 0 && f.pos < f.frames && !f.log[|f.log| - 1].Played? && f.queue != [] ==>
      var c := f.queue[0];
      c.eased && c.off < |c.pcm| && c.place + c.off == f.Want() && !(c.soft && c.seam)
  }

  /** Every ramp and smoothed frame of the block but one that begins it comes right after audio. */
  predicate JoinsFollowAudio(log: seq<Cell>, block: int) {
    forall i | 0 <= block < i < |log| && log[i].Joins() :: log[i - 1].Played?
  }

  predicate RampsOk(f: Fill) {
    f.index >= 0 && |f.log| == f.index + f.pos && JoinsFollowAudio(f.log, f.index) && Poised(f)
  }

  /** A turn that puts nothing out leaves the head where it was, or had nothing put out before it. */
  lemma QuietStepKeepsRamps(f: Fill, g: Fill)
    requires RampsOk(f) && g.log == f.log && g.index == f.index && g.pos == f.pos && g.frames == f.frames
    requires |f.log| > f.index && f.queue != [] && !f.log[|f.log| - 1].Played? ==> g.queue == f.queue || !Poised(f)
    requires f.queue == [] ==> g.queue == []
    ensures RampsOk(g)
  {
  }

  lemma WaitKeepsRamps(f: Fill, n: nat)
    requires f.Working() && RampsOk(f) && f.queue[0].eased && f.queue[0].off < |f.queue[0].pcm|
    requires f.queue[0].place + f.queue[0].off > f.Want() && (f.queue[0].soft ==> n == 1)
    requires f.queue[0].soft ==> !f.queue[0].seam
    requires 0 < n == Min(f.queue[0].place + f.queue[0].off - f.Want(), f.frames - f.pos)
    ensures RampsOk(WaitForHead(f, n))
  {
    hide RampFrame;
    var g := WaitForHead(f, n);
    forall i | f.index < i < |g.log| && g.log[i].Joins() ensures g.log[i - 1].Played? {
      if i < |f.log| {
        assert g.log[i] == f.log[i] && g.log[i - 1] == f.log[i - 1];
      } else {
        assert i == |f.log| && g.log[i - 1] == f.log[i - 1];
      }
    }
  }

  lemma PlayKeepsRamps(f: Fill, n: nat)
    requires f.Working() && RampsOk(f) && 0 < n && f.queue[0].off + n <= |f.queue[0].pcm|
    ensures RampsOk(PlayHead(f, n))
  {
    hide Mean;
    var g := PlayHead(f, n);
    var cells := PlayedCells(f.queue[0], n, f.lastOut);
    assert forall i | 0 <= i < n :: cells[i].Played?;
    assert forall i | |f.log| <= i < |g.log| :: g.log[i] == cells[i - |f.log|];
    forall i | f.index < i < |g.log| && g.log[i].Joins() ensures g.log[i - 1].Played? {
      if i < |f.log| {
        assert g.log[i] == f.log[i];
      } else {
        assert g.log[i] == cells[i - |f.log|];
      }
      assert i - 1 < |f.log| ==> g.log[i - 1] == f.log[i - 1];
    }
  }

  lemma PlacedKeepsRamps(f: Fill, bound: int)
    requires f.Working() && RampsOk(f) && Within(f, bound) && OnlyTheHead(f.queue)
    ensures RampsOk(Placed(f))
  {
    hide WaitForHead, PlayHead, Corrections;
    var c := f.queue[0];
    var start, left := c.place + c.off, |c.pcm| - c.off;
    if start + left <= f.Want() || start < f.Want() {
      QuietStepKeepsRamps(f, Placed(f));
    } else if start > f.Want() {
      WaitKeepsRamps(f, Min(start - f.Want(), f.frames - f.pos));
    } else {
      PlayKeepsRamps(f, Min(f.frames - f.pos, left));
    }
  }

  lemma StepKeepsRamps(f: Fill, written: seq<Written>)
    requires f.Working() && KnownRate(f.rate) && FillOk(f, written) && RampsOk(f)
    requires InStep(f) || (Lag(f) > 0 && |f.log| == f.index)
    ensures RampsOk(Step(f)) && f.log <= Step(f).log && Step(f).index == f.index
  {
    hide Heard, Unread, JoinsFollowAudio, WaitForHead, PlayHead;
    if |f.queue[0].pcm| == 0 {
      QuietStepKeepsRamps(f, Step(f));
    } else if Lag(f) > 0 {
      QuietStepKeepsRamps(f, Step(f)) by {
        if |f.queue[0].pcm| - f.queue[0].off <= Lag(f) {
          assert Step(f) == DropHead(f);
        } else {
          assert Step(f) == CutHead(f, Lag(f));
        }
      }
    } else {
      DecideMovesOneFrame(f);
      DecideKeeps(f);
      QuietStepKeepsRamps(f, Decide(f));
      PlacedKeepsRamps(Decide(f), Corrections(f));
      PlacedOnlyAppends(Decide(f));
    }
  }

  lemma PlacedOnlyAppends(f: Fill)
    requires f.Working() && f.queue[0].off < |f.queue[0].pcm|
    ensures f.log <= Placed(f).log && Placed(f).index == f.index
  {
  }

  lemma {:induction false} FinishedKeepsRamps(f: Fill, written: seq<Written>)
    requires KnownRate(f.rate) && FillOk(f, written) && RampsOk(f)
    requires InStep(f) || (Lag(f) > 0 && |f.log| == f.index)
    ensures JoinsFollowAudio(Finished(f).log, f.index) && f.log <= Finished(f).log
    decreases |f.queue|, f.frames - f.pos, HeadLeft(f)
  {
    hide JoinsFollowAudio, Heard, Shape, Step;
    if f.pos < f.frames && f.queue != [] {
      assert OffsetsFit(f.queue) by { QueueFits(f, written); }
      StepMakesProgress(f);
      StepKeeps(f, written);
      StepKeepsRamps(f, written);
      if Lag(f) > 0 {
        StepCatchesUp(f, written);
      } else {
        StepStaysInStep(f, written);
      }
      FinishedKeepsRamps(Step(f), written);
    }
  }

  /** A block goes on from the timeline so far, and its ramps come right after audio. */
  lemma BlockRamps(s: State, frames: nat)
    requires Valid(s) && Reading(s) && s.map_.anchored
    ensures var log := Read(s, frames).past.log;
      s.past.log <= log && JoinsFollowAudio(log, s.index)
  {
    hide LastSounded, Joined, FramesOf;
    var f := ToFill(s, frames);
    EntryIsOk(s, frames);
    FinishedStaysInBlock(f);
    FinishedKeepsRamps(f, s.past.written);
    var g := Finished(f);
    if g.pos < g.frames {
      var log := RunDry(g).log;
      assert forall i | |g.log| <= i < |log| :: log[i] == Dry;
      assert forall i | 0 <= i < |g.log| :: log[i] == g.log[i];
    }
  }

  /** A ramp or a smoothed frame starts from the frame before it, except perhaps at the start of its block. */
  lemma JoinsMeet(s: State, frames: nat, log: seq<Cell>, i: nat)
    requires Valid(s) && Reading(s) && s.map_.anchored
    requires log == Read(s, frames).past.log && s.index <= i < |log| && log[i].Joins()
    ensures JoinOk(log, i, s.past.written) && LedTo(log, s.index)
    ensures s.index < i ==> log[i - 1].Played? && log[i].From() == log[i - 1].Value()
    ensures |s.past.log| == s.index
    ensures i == s.index ==> log[i].From() == s.lastOut && log[..i] == s.past.log
  {
    hide RampFrame, Mean;
    BlockJoins(s, frames);
    BlockRamps(s, frames);
    assert JoinOk(log, i, s.past.written);
    if s.index < i {
      assert log[..i][i - 1] == log[i - 1];
    } else {
      assert log[..i] == s.past.log;
    }
  }

  /**
   Every ramp of every block: it is half way between the frames it joins, the frame
   after it in its block is the one it leads to, unaltered, and the frame before it
   is audio and the one it starts from, wherever in the block it is but at its very
   start. There it joins if and only if the stream, before the block, still ended
   on the frame it last sounded.
   */
  lemma RampsJoinTheirNeighbours(s: State, frames: nat, log: seq<Cell>, i: nat)
    requires Valid(s) && Reading(s) && s.map_.anchored
    requires log == Read(s, frames).past.log && s.index <= i < |log| && log[i].Ramp?
    ensures log[i].value == RampFrame(log[i].from, log[i].to, 0, 1)
    ensures i + 1 < |log| ==>
              log[i + 1].Played? && log[i + 1].seam.None? && log[i + 1].value == log[i].to
    ensures s.index < i ==> log[i - 1].Played? && log[i].from == log[i - 1].Value()
    ensures |s.past.log| == s.index
    ensures i == s.index > 0 ==>
              (log[i].from == log[i - 1].Value() <==> s.lastOut == s.past.log[s.index - 1].Value())
  {
    hide RampFrame, Mean, LastSounded, Read;
    JoinsMeet(s, frames, log, i);
  }

  /**
   The same of every smoothed frame: it is the mean of its own frame and one before,
   which is the very frame before it wherever in the block it is but at its very
   start, and there under the same condition.
   */
  lemma SmoothedFramesJoinTheirNeighbours(s: State, frames: nat, log: seq<Cell>, i: nat)
    requires Valid(s) && Reading(s) && s.map_.anchored
    requires log == Read(s, frames).past.log && s.index <= i < |log| && log[i].Played? && log[i].seam.Some?
    ensures var c := log[i];
      c.id < |s.past.written| && c.off < |s.past.written[c.id].pcm|
      && c.value == Mean(c.seam.value, s.past.written[c.id].pcm[c.off])
    ensures s.index < i ==> log[i - 1].Played? && log[i].seam.value == log[i - 1].Value()
    ensures |s.past.log| == s.index
    ensures i == s.index > 0 ==>
              (log[i].seam.value == log[i - 1].Value() <==> s.lastOut == s.past.log[s.index - 1].Value())
  {
    hide RampFrame, Mean, LastSounded, Read;
    JoinsMeet(s, frames, log, i);
  }
}
