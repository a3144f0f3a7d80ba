/**
 Which frames of a stream are altered (internal/audio/stream.go:364-388): the first
 one after a soft trim, and no other.
 */
module StreamCuts {
  import opened GoInt
  import opened StreamModel
  import opened StreamState
  import opened StreamFill
  import opened StreamJoins
  import opened StreamRuns
  import opened Wrappers

  /** Frame `j` of the timeline is one of this chunk. */
  predicate WentOut(log: seq<Cell>, j: int, id: nat) {
    0 <= j < |log| && log[j].Played? && log[j].id == id
  }

  predicate IsFrame(c: Cell, id: nat, off: int) {
    c.Played? && c.id == id && c.off == off
  }

  /** Frame `off` of a chunk is in the timeline, from `from` on. */
  predicate Out(log: seq<Cell>, from: nat, id: nat, off: int) {
    exists i :: from <= i < |log| && IsFrame(log[i], id, off)
  }

  /** A soft frame is smoothed exactly when the one before it in its chunk did not go out just before it. */
  predicate SmoothedAfterCut(log: seq<Cell>, i: nat)
    requires i < |log|
  {
    log[i].Played? && log[i].soft ==>
      (log[i].seam.Some? <==> log[i].off > 0 && !WentOut(log, i - 1, log[i].id))
  }

  /** A part-played soft head is to be smoothed exactly when it was cut where it has got to. */
  predicate HeadKnowsItsCut(log: seq<Cell>, queue: seq<Queued>) {
    queue != [] && queue[0].off > 0 && queue[0].soft ==>
      (queue[0].seam <==> !WentOut(log, queue[0].place + queue[0].off - 1, queue[0].id))
  }

  predicate CutsOk(log: seq<Cell>, queue: seq<Queued>) {
    (forall i | 0 <= i < |log| :: SmoothedAfterCut(log, i)) && HeadKnowsItsCut(log, queue)
  }

  // ---------- one turn ----------

  /** Frames of no chunk smooth nothing, and are none of the head's. */
  lemma SilentCellsKeepCuts(log: seq<Cell>, more: seq<Cell>, queue: seq<Queued>)
    requires CutsOk(log, queue) && forall i | 0 <= i < |more| :: !more[i].Played?
    ensures CutsOk(log + more, queue)
  {
    var all := log + more;
    forall i | 0 <= i < |all| ensures SmoothedAfterCut(all, i) {
      if i < |log| {
        assert SmoothedAfterCut(log, i);
      } else {
        assert all[i] == more[i - |log|];
      }
    }
    assert forall j | |log| <= j < |all| :: all[j] == more[j - |log|];
  }

  lemma UntouchedHeadKeepsCuts(log: seq<Cell>, queue: seq<Queued>, rest: seq<Queued>)
    requires CutsOk(log, queue) && (rest != [] ==> rest[0].off == 0 || (queue != [] && rest[0] == queue[0]))
    ensures CutsOk(log, rest)
  {
  }

  /** What is cut off has not gone out. */
  lemma CutKeepsCuts(f: Fill, n: nat, written: seq<Written>)
    requires f.Working() && FillOk(f, written) && CutsOk(f.log, f.queue) && 0 < n
    ensures CutsOk(f.log, CutHead(f, n).queue)
  {
    var c := f.queue[0];
    assert !WentOut(f.log, c.place + c.off + n - 1, c.id);
  }

  lemma PlayKeepsCuts(f: Fill, n: nat, written: seq<Written>)
    requires f.Working() && FillOk(f, written) && CutsOk(f.log, f.queue)
    requires 0 < n && f.queue[0].off + n <= |f.queue[0].pcm| && f.queue[0].place + f.queue[0].off == f.Want()
    ensures CutsOk(PlayHead(f, n).log, PlayHead(f, n).queue)
  {
    hide Mean, Heard, DueOrder, Labelled, Unread;
    var c, g := f.queue[0], PlayHead(f, n);
    var cells := PlayedCells(c, n, f.lastOut);
    assert forall i | |f.log| <= i < |g.log| :: g.log[i] == cells[i - |f.log|];
    forall i | 0 <= i < |g.log| ensures SmoothedAfterCut(g.log, i) {
      if i < |f.log| {
        assert SmoothedAfterCut(f.log, i);
      } else if i == |f.log| {
        assert WentOut(g.log, i - 1, c.id) == WentOut(f.log, i - 1, c.id);
      } else {
        assert g.log[i - 1] == cells[i - 1 - |f.log|];
      }
    }
    if c.off + n < |c.pcm| {
      assert g.log[|g.log| - 1] == cells[n - 1];
    } else {
      assert g.queue == f.queue[1..] && (g.queue != [] ==> Untouched(f.queue[1]));
    }
  }

  lemma PlacedKeepsCuts(f: Fill, written: seq<Written>)
    requires f.Working() && FillOk(f, written) && CutsOk(f.log, f.queue) && f.queue[0].off < |f.queue[0].pcm|
    ensures CutsOk(Placed(f).log, Placed(f).queue)
  {
    hide Heard, CutsOk, PlayHead, Unread, RampFrame, DueOrder, Labelled;
    var c, want := f.queue[0], f.Want();
    var start, left := c.place + c.off, |c.pcm| - c.off;
    if start + left <= want {
      assert f.queue[1..] != [] ==> Untouched(f.queue[1]);
      UntouchedHeadKeepsCuts(f.log, f.queue, f.queue[1..]);
    } else if start < want {
      assert CutHead(f, want - start).log == f.log;
      CutKeepsCuts(f, want - start, written);
    } else if start > want {
      var g := WaitForHead(f, Min(start - want, f.frames - f.pos));
      SilentCellsKeepCuts(f.log, g.log[|f.log|..], f.queue);
      assert g.log == f.log + g.log[|f.log|..];
    } else {
      PlayKeepsCuts(f, Min(f.frames - f.pos, left), written);
    }
  }

  lemma StepKeepsCuts(f: Fill, written: seq<Written>)
    requires f.Working() && FillOk(f, written) && CutsOk(f.log, f.queue)
    ensures CutsOk(Step(f).log, Step(f).queue)
  {
    hide Placed, CutsOk, Heard, Unread, DueOrder, Labelled;
    if |f.queue[0].pcm| == 0 {
      assert f.queue[1..] != [] ==> Untouched(f.queue[1]);
      UntouchedHeadKeepsCuts(f.log, f.queue, f.queue[1..]);
    } else {
      DecideKeepsOk(f, written);
      DecideKeeps(f);
      UntouchedHeadKeepsCuts(f.log, f.queue, Decide(f).queue);
      PlacedKeepsCuts(Decide(f), written);
    }
  }

  lemma {:induction false} FinishedKeepsCuts(f: Fill, written: seq<Written>)
    requires FillOk(f, written) && CutsOk(f.log, f.queue)
    ensures CutsOk(Finished(f).log, Finished(f).queue)
    decreases |f.queue|, f.frames - f.pos, HeadLeft(f)
  {
    hide CutsOk, Heard, Shape, Step, Unread;
    if f.pos < f.frames && f.queue != [] {
      assert OffsetsFit(f.queue) by { QueueFits(f, written); }
      StepMakesProgress(f);
      StepKeeps(f, written);
      StepKeepsCuts(f, written);
      FinishedKeepsCuts(Step(f), written);
    }
  }

  // ---------- every call ----------

  predicate StateCutsOk(s: State) {
    CutsOk(s.past.log, s.queue)
  }

  lemma ReadKeepsCuts(s: State, frames: nat)
    requires Valid(s) && StateCutsOk(s)
    ensures StateCutsOk(Read(s, frames))
  {
    hide CutsOk, HeadOnTime, Joined, LastSounded, FramesOf, Unread;
    if Reading(s) && s.map_.anchored {
      var f := ToFill(s, frames);
      EntryIsOk(s, frames);
      FinishedStaysInBlock(f);
      FinishedKeepsCuts(f, s.past.written);
      var g := Finished(f);
      SilentCellsKeepCuts(g.log, seq(g.frames - g.pos, _ => Dry), g.queue);
    } else if Reading(s) {
      SilentCellsKeepCuts(s.past.log, seq(frames, _ => Blind), s.queue);
    }
  }

  lemma WriteKeepsCuts(s: State, now: int, at: int, pcm: seq<Byte>)
    requires Valid(s) && StateCutsOk(s)
    ensures StateCutsOk(Write(s, now, at, pcm))
  {
    hide CutsOk, Heard, Joined, LastSounded, FramesOf, Unread;
    var t := Write(s, now, at, pcm);
    if Refused(s, now, at, pcm) == None {
      var i, c := Slot(s.queue, at, |s.queue|), Fresh(at, Decode(pcm), |s.past.written|);
      SlotSplitsTheQueue(s.queue, at, |s.queue|);
      InsertedIndexes(s.queue, i, c);
      UntouchedHeadKeepsCuts(s.past.log, s.queue, t.queue);
    }
  }

  lemma ApplyKeepsCuts(s: State, op: Op)
    requires Valid(s) && StateCutsOk(s)
    ensures StateCutsOk(Apply(s, op))
  {
    hide CutsOk, Read, Write, Place, Heard, Joined, LastSounded, FramesOf, Unread;
    match op
    case OpRead(frames) => ReadKeepsCuts(s, frames);
    case OpWrite(now, at, pcm) => WriteKeepsCuts(s, now, at, pcm);
    case OpPlace(p) =>
      PlaceTouchesOnlyTheMapping(s, p);
      UntouchedHeadKeepsCuts(s.past.log, s.queue, Place(s, p).0.queue);
    case _ => UntouchedHeadKeepsCuts(s.past.log, s.queue, Apply(s, op).queue);
  }

  lemma {:induction false} RunKeepsCuts(s: State, ops: seq<Op>)
    requires Valid(s) && StateCutsOk(s)
    ensures StateCutsOk(Run(s, ops))
    decreases |ops|
  {
    hide Apply, StateCutsOk;
    if ops != [] {
      ApplyKeepsValid(s, ops[0]);
      ApplyKeepsCuts(s, ops[0]);
      RunKeepsCuts(Apply(s, ops[0]), ops[1..]);
    }
  }

  lemma NewStateHasNoCuts(rate: int)
    ensures StateCutsOk(NewState(rate))
  {
  }

  lemma ReachableKnowsItsCuts(s: State)
    requires Reachable(s)
    ensures StateCutsOk(s)
  {
    hide Valid, StateCutsOk;
    var rate, ops := ReachableByARun(s);
    NewStateIsValid(rate);
    NewStateHasNoCuts(rate);
    RunKeepsCuts(NewState(rate), ops);
  }

  /**
   Over every run: a frame of a chunk goes out as it was written, unless it is of a
   soft chunk and frames of the chunk were cut right before it, so that the one
   before it never goes out. Then, and only then, it goes out as a mean.
   */
  lemma OnlyTheFrameAfterACutIsAltered(s: State, i: nat)
    requires Reachable(s) && i < |s.past.log| && s.past.log[i].Played?
    ensures var c := s.past.log[i];
      && (c.seam.Some? <==> c.soft && c.off > 0 && !Out(s.past.log, 0, c.id, c.off - 1))
      && c.id < |s.past.written| && c.off < |s.past.written[c.id].pcm|
      && c.value == (if c.seam.Some? then Mean(c.seam.value, s.past.written[c.id].pcm[c.off])
                     else s.past.written[c.id].pcm[c.off])
  {
    ReachableKnowsItsCuts(s);
    EveryFrameFollowsTheRule(s, i);
    assert SmoothedAfterCut(s.past.log, i);
    hide StateCutsOk, Reachable, Mean;
    OnlyRightBefore(s, i);
  }

  /** The frame before one in its chunk goes out just before it or not at all. */
  lemma OnlyRightBefore(s: State, i: nat)
    requires Reachable(s) && i < |s.past.log| && s.past.log[i].Played?
    ensures var c := s.past.log[i];
      Out(s.past.log, 0, c.id, c.off - 1) <==> WentOut(s.past.log, i - 1, c.id)
  {
    hide Reachable;
    var c := s.past.log[i];
    forall j | 0 <= j < |s.past.log| && IsFrame(s.past.log[j], c.id, c.off - 1) ensures j == i - 1 {
      if j < i {
        EveryFramePlaysOnce(s, j, i);
      } else if i < j {
        EveryFramePlaysOnce(s, i, j);
      }
    }
    if WentOut(s.past.log, i - 1, c.id) {
      EveryFramePlaysOnce(s, i - 1, i);
      assert IsFrame(s.past.log[i - 1], c.id, c.off - 1);
    }
  }
}
