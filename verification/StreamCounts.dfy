/**
 What a stream reports of itself (internal/audio/stream.go:215-219, 268-295): its
 counters are the numbers of frames of each kind that went out.
 */
module StreamCounts {
  import opened GoInt
  import opened StreamModel
  import opened StreamState
  import opened StreamRuns

  datatype Kind = Audio | MadeUp | Silence

  function KindOf(c: Cell): Kind {
    if c.Played? then Audio else if c.Ramp? then MadeUp else Silence
  }

  /** How many frames of a kind a timeline has. */
  function Tally(log: seq<Cell>, k: Kind): nat {
    if log == [] then 0
    else Tally(log[..|log| - 1], k) + if KindOf(log[|log| - 1]) == k then 1 else 0
  }

  lemma {:induction false} TallyAll(log: seq<Cell>)
    ensures Tally(log, Audio) + Tally(log, MadeUp) + Tally(log, Silence) == |log|
    decreases |log|
  {
    if log != [] {
      TallyAll(log[..|log| - 1]);
    }
  }

  /** Frames all of one kind add to the tally of that kind only. */
  lemma {:induction false} TallyMore(log: seq<Cell>, more: seq<Cell>, kind: Kind, k: Kind)
    requires forall i | 0 <= i < |more| :: KindOf(more[i]) == kind
    ensures Tally(log + more, k) == Tally(log, k) + if k == kind then |more| else 0
    decreases |more|
  {
    if more == [] {
      assert log + more == log;
    } else {
      var all, less := log + more, more[..|more| - 1];
      assert all[..|all| - 1] == log + less && all[|all| - 1] == more[|more| - 1];
      TallyMore(log, less, kind, k);
    }
  }

  /** Between two points of a call the counters move as the timeline does. */
  predicate CountsTogether(f: Fill, g: Fill) {
    && g.filled - f.filled == Tally(g.log, Audio) - Tally(f.log, Audio)
    && g.blended - f.blended == Tally(g.log, MadeUp) - Tally(f.log, MadeUp)
  }

  lemma PlayedCellsAreAudio(c: Queued, n: nat, lastOut: Frame)
    requires c.off + n <= |c.pcm|
    ensures forall i | 0 <= i < n :: KindOf(PlayedCells(c, n, lastOut)[i]) == Audio
  {
  }

  lemma PlayingCounts(f: Fill, n: nat)
    requires f.Working() && 0 < n && f.queue[0].off + n <= |f.queue[0].pcm|
    ensures CountsTogether(f, PlayHead(f, n))
  {
    hide PlayedCells, Tally, KindOf;
    PlayedCellsAreAudio(f.queue[0], n, f.lastOut);
    TallyMore(f.log, PlayedCells(f.queue[0], n, f.lastOut), Audio, Audio);
    TallyMore(f.log, PlayedCells(f.queue[0], n, f.lastOut), Audio, MadeUp);
  }

  lemma WaitingCounts(f: Fill, n: nat)
    requires f.Working() && f.queue[0].off < |f.queue[0].pcm|
    ensures CountsTogether(f, WaitForHead(f, n))
  {
    hide RampFrame, Tally;
    var c := f.queue[0];
    var more, kind := if c.soft then RampCells(f.lastOut, c.pcm[c.off], n) else seq(n, _ => Gap),
                      if c.soft then MadeUp else Silence;
    TallyMore(f.log, more, kind, Audio);
    TallyMore(f.log, more, kind, MadeUp);
  }

  lemma StepCounts(f: Fill)
    requires f.Working() && OffsetsFit(f.queue)
    ensures CountsTogether(f, Step(f))
  {
    hide Tally, PlayHead, WaitForHead;
    if |f.queue[0].pcm| > 0 {
      DecideKeeps(f);
      var d := Decide(f);
      var start, left := d.queue[0].place + d.queue[0].off, |d.queue[0].pcm| - d.queue[0].off;
      if start > d.Want() {
        WaitingCounts(d, Min(start - d.Want(), d.frames - d.pos));
      } else if start == d.Want() {
        PlayingCounts(d, Min(d.frames - d.pos, left));
      }
    }
  }

  lemma {:induction false} FinishedCounts(f: Fill)
    requires f.rate > 0 && OffsetsFit(f.queue) && f.pos <= f.frames
    ensures CountsTogether(f, Finished(f))
    decreases |f.queue|, f.frames - f.pos, HeadLeft(f)
  {
    hide Tally, Step;
    if f.Working() {
      StepMakesProgress(f);
      StepCounts(f);
      FinishedCounts(Step(f));
    }
  }

  // ---------- every call ----------

  predicate CountsOk(s: State) {
    && s.placed == Tally(s.past.log, Audio)
    && s.past.blended == Tally(s.past.log, MadeUp)
    && s.silence == Tally(s.past.log, Silence)
  }

  lemma RunDryCounts(f: Fill)
    requires f.pos <= f.frames
    ensures CountsTogether(f, RunDry(f))
  {
    hide Tally;
    TallyMore(f.log, seq(f.frames - f.pos, _ => Dry), Silence, Audio);
    TallyMore(f.log, seq(f.frames - f.pos, _ => Dry), Silence, MadeUp);
  }

  lemma BlockCounts(s: State, frames: nat)
    requires Ready(s) && CountsOk(s)
    requires |s.past.log| == s.index
    requires var t := FromFill(s, RunDry(FinishedInBlock(ToFill(s, frames)))); |t.past.log| == t.index
    ensures CountsOk(FromFill(s, RunDry(FinishedInBlock(ToFill(s, frames)))))
  {
    hide Tally, Finished, RunDry;
    var f := ToFill(s, frames);
    FinishedStaysInBlock(f);
    FinishedCounts(f);
    var g := Finished(f);
    RunDryCounts(g);
    assert RunDry(g).filled == g.filled && RunDry(g).blended == g.blended && RunDry(g).frames == frames by {
      RunDryKeepsTheRest(g);
    }
    TallyAll(s.past.log);
    TallyAll(RunDry(g).log);
  }

  lemma RunDryKeepsTheRest(f: Fill)
    requires f.pos <= f.frames
    ensures RunDry(f) == f.(lastOut := RunDry(f).lastOut, log := RunDry(f).log)
  {
  }

  lemma ReadBlockCounts(s: State, frames: nat)
    requires Valid(s) && Reading(s) && s.map_.anchored && CountsOk(s)
    ensures Ready(s) && CountsOk(Read(s, frames))
  {
    hide FinishedInBlock, CountsOk, RunDry;
    ReadKeepsValid(s, frames);
    BlockCounts(s, frames);
  }

  lemma ApplyCounts(s: State, op: Op)
    requires Valid(s) && CountsOk(s)
    ensures CountsOk(Apply(s, op))
  {
    ValidIsReady(s);
    hide Valid, Tally, Place, FinishedInBlock;
    match op
    case OpRead(frames) =>
      if Reading(s) && s.map_.anchored {
        ReadBlockCounts(s, frames);
      } else {
        TallyMore(s.past.log, seq(frames, _ => Blind), Silence, Audio);
        TallyMore(s.past.log, seq(frames, _ => Blind), Silence, MadeUp);
        TallyMore(s.past.log, seq(frames, _ => Blind), Silence, Silence);
      }
    case OpPlace(p) => PlaceTouchesOnlyTheMapping(s, p);
    case _ =>
  }

  lemma {:induction false} RunCounts(s: State, ops: seq<Op>)
    requires Valid(s) && CountsOk(s)
    ensures CountsOk(Run(s, ops))
    decreases |ops|
  {
    hide Valid, Apply, CountsOk;
    ValidIsReady(s);
    if ops != [] {
      ApplyKeepsValid(s, ops[0]);
      ApplyCounts(s, ops[0]);
      RunCounts(Apply(s, ops[0]), ops[1..]);
    }
  }

  lemma NewStateCounts(rate: int)
    ensures CountsOk(NewState(rate))
  {
  }

  /**
   Over every run: `placed` is the number of frames of audio that went out, `silence`
   that of silent ones, and `eased` that of ramps, beside what was trimmed.
   */
  lemma EveryCounterIsWhatWentOut(s: State)
    requires Reachable(s)
    ensures s.placed == Tally(s.past.log, Audio) && s.silence == Tally(s.past.log, Silence)
    ensures s.past.blended == Tally(s.past.log, MadeUp) && s.eased == Tally(s.past.log, MadeUp) + s.past.trimmed
    ensures FramesOf(s.past.written) ==
            s.held + Tally(s.past.log, Audio) + s.late + s.past.trimmed + s.past.discarded
  {
    hide Valid, CountsOk;
    var rate, ops := ReachableByARun(s);
    NewStateIsValid(rate);
    NewStateCounts(rate);
    RunCounts(NewState(rate), ops);
    EveryRunBalances(s);
    CountsAre(s);
  }

  lemma CountsAre(s: State)
    requires CountsOk(s)
    ensures s.placed == Tally(s.past.log, Audio) && s.past.blended == Tally(s.past.log, MadeUp)
    ensures s.silence == Tally(s.past.log, Silence)
  {
  }
}
