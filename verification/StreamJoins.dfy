/**
 What lies on each side of a frame that `fill` made up or altered
 (internal/audio/stream.go:70-79, 380-408).
 */
module StreamJoins {
  import opened GoInt
  import opened StreamModel
  import opened StreamState
  import opened StreamFill
  import opened StreamSeams

  /**
   The last frame a timeline sounded: its last played frame, or silence once the
   queue ran dry after it. Waiting, ramps and silence without a mapping are passed over.
   */
  function LastSounded(log: seq<Cell>): Frame {
    if log == [] then SILENT
    else
      match log[|log| - 1]
      case Played(_, _, _, _, _, _, value) => value
      case Dry => SILENT
      case _ => LastSounded(log[..|log| - 1])
  }

  /** A made-up frame is half way, and so is the one frame a soft trim smooths. */
  predicate JoinOk(log: seq<Cell>, i: nat, written: seq<Written>)
    requires i < |log|
  {
    var before := LastSounded(log[..i]);
    match log[i]
    case Ramp(from, to, value) => from == before && value == RampFrame(from, to, 0, 1)
    case Played(id, off, _, _, _, Some(from), value) =>
      from == before && id < |written| && off < |written[id].pcm| && value == Mean(before, written[id].pcm[off])
    case _ => true
  }

  predicate Joined(log: seq<Cell>, written: seq<Written>) {
    forall i | 0 <= i < |log| :: JoinOk(log, i, written)
  }

  /** Inside one block a ramp is followed by the frame it leads to, unaltered. */
  predicate LedTo(log: seq<Cell>, block: nat) {
    forall i | block <= i < |log| - 1 && log[i].Ramp? ::
      log[i + 1].Played? && log[i + 1].seam.None? && log[i + 1].value == log[i].to
  }

  /** After a ramp at the end so far, even of the block, the head goes on at once with the frame it leads to. */
  predicate Leading(f: Fill) {
    f.index >= 0 && |f.log| > f.index && f.log[|f.log| - 1].Ramp? ==>
      && f.queue != []
      && var c := f.queue[0];
         && c.eased && !c.seam && c.off < |c.pcm| && c.place + c.off == f.Want()
         && c.pcm[c.off] == f.log[|f.log| - 1].to
  }

  predicate JoinsOk(f: Fill, written: seq<Written>) {
    && f.index >= 0
    && f.lastOut == LastSounded(f.log) && Joined(f.log, written)
    && LedTo(f.log, f.index) && Leading(f)
  }

  // ---------- appending to a timeline ----------

  lemma LastSoundedOfRest(log: seq<Cell>, more: seq<Cell>)
    requires forall i | 0 <= i < |more| :: !more[i].Played? && !more[i].Dry?
    ensures LastSounded(log + more) == LastSounded(log)
  {
    if more == [] {
      assert log + more == log;
    } else {
      var all, less := log + more, more[..|more| - 1];
      assert all[..|all| - 1] == log + less;
      assert all[|all| - 1] == more[|more| - 1];
      LastSoundedOfRest(log, less);
    }
  }

  lemma LastSoundedOfEnd(log: seq<Cell>, more: seq<Cell>)
    requires more != [] && (more[|more| - 1].Played? || more[|more| - 1].Dry?)
    ensures LastSounded(log + more) == more[|more| - 1].Value()
  {
  }

  lemma JoinedAppend(log: seq<Cell>, more: seq<Cell>, written: seq<Written>)
    requires Joined(log, written)
    requires forall i | |log| <= i < |log| + |more| :: JoinOk(log + more, i, written)
    ensures Joined(log + more, written)
  {
    var all := log + more;
    forall i | 0 <= i < |all| ensures JoinOk(all, i, written) {
      if i < |log| {
        assert JoinOk(log, i, written);
        assert all[..i] == log[..i];
      }
    }
  }

  // ---------- each outcome of one turn ----------

  /** Nothing is put out by deciding, dropping or cutting. */
  lemma QuietStepKeepsJoins(f: Fill, g: Fill, written: seq<Written>)
    requires JoinsOk(f, written)
    requires g.log == f.log && g.lastOut == f.lastOut && g.index == f.index
    requires g.pos == f.pos && g.frames == f.frames
    requires |f.log| > f.index ==> !f.log[|f.log| - 1].Ramp? || g.queue == f.queue
    ensures JoinsOk(g, written)
  {
  }

  lemma LedToAppends(log: seq<Cell>, block: nat, cell: Cell)
    requires LedTo(log, block) && (|log| > block ==> !log[|log| - 1].Ramp?)
    ensures LedTo(log + [cell], block)
  {
    var all := log + [cell];
    forall i | block <= i < |all| - 1 && all[i].Ramp?
      ensures all[i + 1].Played? && all[i + 1].seam.None? && all[i + 1].value == all[i].to
    {
      assert all[i] == log[i];
    }
  }

  lemma ARampJoins(log: seq<Cell>, to: Frame, written: seq<Written>)
    requires Joined(log, written)
    ensures Joined(log + [Ramp(LastSounded(log), to, RampFrame(LastSounded(log), to, 0, 1))], written)
  {
    hide LastSounded, RampFrame;
    var ramp := [Ramp(LastSounded(log), to, RampFrame(LastSounded(log), to, 0, 1))];
    assert (log + ramp)[..|log|] == log;
    JoinedAppend(log, ramp, written);
  }

  /** One made-up frame, put down where nothing is being led to. */
  lemma RampAppends(log: seq<Cell>, block: nat, to: Frame, written: seq<Written>)
    requires Joined(log, written) && LedTo(log, block)
    requires |log| > block ==> !log[|log| - 1].Ramp?
    ensures var all := log + RampCells(LastSounded(log), to, 1);
      Joined(all, written) && LedTo(all, block) && LastSounded(all) == LastSounded(log)
  {
    hide LastSounded, Joined, LedTo, RampFrame;
    var from := LastSounded(log);
    var ramp := Ramp(from, to, RampFrame(from, to, 0, 1));
    assert RampCells(from, to, 1) == [ramp];
    LastSoundedOfRest(log, [ramp]);
    ARampJoins(log, to, written);
    LedToAppends(log, block, ramp);
  }

  lemma WaitSoftKeepsJoins(f: Fill, written: seq<Written>, bound: int)
    requires f.Working() && FillOk(f, written) && Within(f, bound) && JoinsOk(f, written)
    requires f.queue[0].place + f.queue[0].off > f.Want() && f.queue[0].soft
    ensures Min(f.queue[0].place + f.queue[0].off - f.Want(), f.frames - f.pos) == 1
    ensures JoinsOk(WaitForHead(f, 1), written)
  {
    hide Joined, LedTo, LastSounded, Heard, DueOrder, Labelled, Unread;
    RampAppends(f.log, f.index, f.queue[0].pcm[f.queue[0].off], written);
  }

  /** Waiting puts down frames that join nothing, where nothing is being led to. */
  lemma GapsAppend(log: seq<Cell>, block: nat, n: nat, written: seq<Written>)
    requires Joined(log, written) && LedTo(log, block)
    requires |log| > block ==> !log[|log| - 1].Ramp?
    ensures var all := log + seq(n, _ => Gap);
      Joined(all, written) && LedTo(all, block) && LastSounded(all) == LastSounded(log)
  {
    var cells := seq(n, _ => Gap);
    var all := log + cells;
    LastSoundedOfRest(log, cells);
    hide LastSounded, RampFrame, Mean;
    assert forall i | |log| <= i < |all| :: all[i] == Gap;
    JoinedAppend(log, cells, written);
    forall i | block <= i < |all| - 1 && all[i].Ramp?
      ensures all[i + 1].Played? && all[i + 1].seam.None? && all[i + 1].value == all[i].to
    {
      assert i < |log| - 1 && all[i] == log[i] && all[i + 1] == log[i + 1];
    }
  }

  lemma WaitHardKeepsJoins(f: Fill, n: nat, written: seq<Written>)
    requires f.Working() && FillOk(f, written) && JoinsOk(f, written)
    requires f.queue[0].eased && f.queue[0].off < |f.queue[0].pcm| && !f.queue[0].soft
    requires f.queue[0].place + f.queue[0].off > f.Want()
    requires 0 < n && f.pos + n <= f.frames
    ensures JoinsOk(WaitForHead(f, n), written)
  {
    hide Joined, LedTo, LastSounded, Heard, Shape, Unread;
    GapsAppend(f.log, f.index, n, written);
  }

  lemma PlayedCellsJoin(f: Fill, n: nat, written: seq<Written>)
    requires f.Working() && FillOk(f, written) && Joined(f.log, written) && f.lastOut == LastSounded(f.log)
    requires 0 < n && f.queue[0].off + n <= |f.queue[0].pcm|
    ensures var all := f.log + PlayedCells(f.queue[0], n, f.lastOut);
      Joined(all, written) && LastSounded(all) == all[|all| - 1].Value()
  {
    hide Joined, Mean;
    var cells := PlayedCells(f.queue[0], n, f.lastOut);
    var all := f.log + cells;
    LastSoundedOfEnd(f.log, cells);
    forall i | |f.log| <= i < |all| ensures JoinOk(all, i, written) {
      assert all[i] == cells[i - |f.log|];
      if all[i].seam.Some? {
        assert all[..i] == f.log;
      }
    }
    JoinedAppend(f.log, cells, written);
  }

  /** A ramp just before is led to by the first of the frames. */
  lemma PlayedCellsAreLedTo(f: Fill, n: nat)
    requires f.Working() && 0 < n && f.queue[0].off + n <= |f.queue[0].pcm|
    requires 0 <= f.index <= |f.log| && LedTo(f.log, f.index) && Leading(f)
    ensures LedTo(f.log + PlayedCells(f.queue[0], n, f.lastOut), f.index)
  {
    hide Mean;
    var cells := PlayedCells(f.queue[0], n, f.lastOut);
    var all := f.log + cells;
    assert forall i | |f.log| <= i < |all| :: all[i] == cells[i - |f.log|];
    forall i | f.index <= i < |all| - 1 && all[i].Ramp?
      ensures all[i + 1].Played? && all[i + 1].seam.None? && all[i + 1].value == all[i].to
    {
      if i < |f.log| - 1 {
        assert all[i] == f.log[i] && all[i + 1] == f.log[i + 1];
      } else {
        assert i == |f.log| - 1 && all[i + 1] == cells[0];
      }
    }
  }

  lemma PlayKeepsJoins(f: Fill, n: nat, written: seq<Written>)
    requires f.Working() && FillOk(f, written) && JoinsOk(f, written)
    requires f.queue[0].eased && f.queue[0].place + f.queue[0].off == f.Want()
    requires 0 < n && f.queue[0].off + n <= |f.queue[0].pcm| && f.pos + n <= f.frames
    ensures JoinsOk(PlayHead(f, n), written)
  {
    hide Joined, LedTo, LastSounded, Heard, Shape, Unread, Mean;
    var cells := PlayedCells(f.queue[0], n, f.lastOut);
    PlayedCellsJoin(f, n, written);
    PlayedCellsAreLedTo(f, n);
    assert (f.log + cells)[|f.log + cells| - 1] == cells[n - 1];
  }

  lemma PlacedKeepsJoins(f: Fill, written: seq<Written>, bound: int)
    requires f.Working() && FillOk(f, written) && Within(f, bound) && JoinsOk(f, written)
    ensures JoinsOk(Placed(f), written)
  {
    hide Heard, Shape, Unread, Joined, LedTo, LastSounded, WaitForHead, PlayHead;
    var c, want := f.queue[0], f.Want();
    var start, left := c.place + c.off, |c.pcm| - c.off;
    if start + left <= want {
      QuietStepKeepsJoins(f, DropHead(f), written);
    } else if start < want {
      QuietStepKeepsJoins(f, CutHead(f, want - start), written);
    } else if start > want {
      var n := Min(start - want, f.frames - f.pos);
      if c.soft {
        WaitSoftKeepsJoins(f, written, bound);
      } else {
        WaitHardKeepsJoins(f, n, written);
      }
      assert Placed(f) == WaitForHead(f, n);
    } else {
      PlayKeepsJoins(f, Min(f.frames - f.pos, left), written);
      assert Placed(f) == PlayHead(f, Min(f.frames - f.pos, left));
    }
  }

  lemma StepKeepsJoins(f: Fill, written: seq<Written>)
    requires f.Working() && KnownRate(f.rate) && FillOk(f, written) && JoinsOk(f, written)
    requires InStep(f) || (Lag(f) > 0 && |f.log| == f.index)
    ensures JoinsOk(Step(f), written)
  {
    hide Heard, Unread, DueOrder, Labelled, Joined, LedTo, LastSounded, WaitForHead, PlayHead;
    if |f.queue[0].pcm| == 0 {
      QuietStepKeepsJoins(f, f.(queue := f.queue[1..]), written);
    } else if Lag(f) > 0 {
      QuietStepKeepsJoins(f, Step(f), written) by {
        if |f.queue[0].pcm| - f.queue[0].off <= Lag(f) {
          assert Step(f) == DropHead(f);
        } else {
          assert Step(f) == CutHead(f, Lag(f));
        }
      }
    } else {
      DecideMovesOneFrame(f);
      DecideKeeps(f);
      DecideKeepsOk(f, written);
      QuietStepKeepsJoins(f, Decide(f), written);
      PlacedKeepsJoins(Decide(f), written, Corrections(f));
    }
  }

  lemma FinishedKeepsJoins(f: Fill, written: seq<Written>)
    requires KnownRate(f.rate) && FillOk(f, written) && JoinsOk(f, written)
    requires InStep(f) || (Lag(f) > 0 && |f.log| == f.index)
    ensures JoinsOk(Finished(f), written)
    decreases |f.queue|, f.frames - f.pos, HeadLeft(f)
  {
    if f.pos < f.frames && f.queue != [] {
      StepMakesProgress(f);
      StepKeeps(f, written);
      StepKeepsJoins(f, written);
      if Lag(f) > 0 {
        StepCatchesUp(f, written);
      } else {
        StepStaysInStep(f, written);
      }
      FinishedKeepsJoins(Step(f), written);
    }
  }

  lemma RunDryKeepsJoins(f: Fill, written: seq<Written>)
    requires JoinsOk(f, written) && f.pos <= f.frames
    requires f.pos == f.frames || f.queue == []
    ensures JoinsOk(RunDry(f).(pos := f.frames), written)
  {
    if f.pos < f.frames {
      var cells := seq(f.frames - f.pos, _ => Dry);
      var all := f.log + cells;
      LastSoundedOfEnd(f.log, cells);
      assert forall i | |f.log| <= i < |all| :: all[i] == Dry;
      JoinedAppend(f.log, cells, written);
      assert forall i | f.index <= i < |all| - 1 && all[i].Ramp? :: i < |f.log| - 1;
    }
  }
}
