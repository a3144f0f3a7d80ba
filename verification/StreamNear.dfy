/**
 How far from its time audio may go out (internal/audio/stream.go:70-100, 342-358): at
 the frame its timestamp names, or within 50 ms and a frame of it once the stream
 is under way.
 */
module StreamNear {
  import opened GoInt
  import opened FrameClock
  import opened StreamModel
  import opened StreamState
  import opened StreamFill
  import opened StreamSeams
  import opened StreamRuns
  import opened StreamPlacement
  import opened Wrappers

  // ---------- one decision ----------

  /** How far the frame a chunk's timestamp names is ahead of the one the block has come to. */
  function AheadBy(f: Fill): int
    requires f.Working()
  {
    f.originIndex + FrameCount(f.rate, f.queue[0].at - f.origin) - (f.index + f.pos)
  }

  /** Nothing was played yet, or the output jumped, or the chunk is more than 50 ms off. */
  predicate Forced(f: Fill)
    requires f.Working()
  {
    !f.began || f.jump || 20 * Abs(AheadBy(f)) > f.rate
  }

  lemma FiftyMilliseconds(rate: int, err: int)
    requires KnownRate(rate)
    ensures 20 * Abs(err) > rate <==> err > FrameCount(rate, SNAP_ABOVE) || err < -FrameCount(rate, SNAP_ABOVE)
    ensures 20 * FrameCount(rate, SNAP_ABOVE) == rate
  {
    assert FrameCount(48000, SNAP_ABOVE) == 2400 && FrameCount(44100, SNAP_ABOVE) == 2205;
  }

  /**
   A chunk is put exactly where its timestamp says if it must be, and then what was
   learned of its lag is forgotten and a pending jump is over unless all of it is
   past. Otherwise it goes on from where the block has come to, or a frame from
   there; so anything more than a frame off is put right only if it must be.
   */
  lemma WhenADecisionIsForced(f: Fill)
    requires f.Working() && KnownRate(f.rate) && !f.queue[0].eased
    ensures var c, g := Decide(f).queue[0], Decide(f);
      && c.eased && c.due == f.Want() + AheadBy(f) && c.off == f.queue[0].off && c.pcm == f.queue[0].pcm
      && (Forced(f) ==> c.place == c.due && !c.soft && g.smooth == 0)
      && (!Forced(f) ==> f.Want() - 1 <= c.place <= f.Want() + 1 && (c.soft <==> c.place != c.due))
      && (Abs(AheadBy(f)) > 1 ==> (c.place == c.due <==> Forced(f)))
      && (g.jump <==> f.jump && AheadBy(f) + |c.pcm| <= 0)
  {
    FiftyMilliseconds(f.rate, AheadBy(f));
    EaseIsOneFrame(f.rate, Smoothed(f.smooth, AheadBy(f)) / SMOOTH_ONE);
  }

  /** The lag remembered is 5 ms or more, and the last correction was 200 frames ago. */
  predicate Corrects(f: Fill, lag: int) {
    f.index - f.easedAt >= 200 && (200 * lag >= f.rate - 199 || 200 * lag <= 199 - f.rate)
  }

  lemma FiveMilliseconds(rate: int, lag: int)
    requires KnownRate(rate)
    ensures Ease(rate, lag) == if 200 * lag >= rate - 199 then 1 else if 200 * lag <= 199 - rate then -1 else 0
  {
    assert FrameCount(48000, DEAD_BAND) == 240 && FrameCount(44100, DEAD_BAND) == 220;
    assert FrameCount(48000, SOFT_STEP) == 1 && FrameCount(44100, SOFT_STEP) == 0;
  }

  /** What is remembered of the lag moves a fiftieth of the way to this one, in 1024ths of a frame. */
  lemma LagIsAveraged(smooth: int, err: int)
    ensures var moved, way := Smoothed(smooth, err) - smooth, 1024 * err - smooth;
      (way >= 0 ==> 50 * moved <= way < 50 * moved + 50) && (way <= 0 ==> 50 * moved - 50 < way <= 50 * moved)
  {
    QuoBounds(1024 * err - smooth, 50);
  }

  /**
   Where the stream is not forced it corrects by a frame, toward the chunk's time,
   exactly when the lag remembered is 5 ms or more and the last correction was 200
   frames ago; and only a correction is noted.
   */
  lemma WhenADecisionCorrects(f: Fill)
    requires f.Working() && KnownRate(f.rate) && !f.queue[0].eased && !Forced(f)
    ensures var g := Decide(f); var lag := Smoothed(f.smooth, AheadBy(f)) / 1024;
      && g.smooth == Smoothed(f.smooth, AheadBy(f))
      && g.queue[0].place == f.Want() + (if !Corrects(f, lag) then 0 else if lag > 0 then 1 else -1)
      && g.easedAt == (if Corrects(f, lag) then f.index else f.easedAt)
  {
    FiftyMilliseconds(f.rate, AheadBy(f));
    FiveMilliseconds(f.rate, Smoothed(f.smooth, AheadBy(f)) / SMOOTH_ONE);
  }

  // ---------- every run ----------

  /** A place within 50 ms and a frame of the due frame. */
  predicate Near(rate: int, place: int, due: int) {
    20 * (Abs(place - due) - 1) <= rate
  }

  predicate CellNear(rate: int, c: Cell) {
    c.Played? ==> Near(rate, c.place, c.due) && (c.place != c.due ==> c.soft)
  }

  predicate NearOk(rate: int, log: seq<Cell>, queue: seq<Queued>) {
    && (forall i | 0 <= i < |log| :: CellNear(rate, log[i]))
    && (queue != [] && queue[0].eased ==>
          Near(rate, queue[0].place, queue[0].due) && (queue[0].place != queue[0].due ==> queue[0].soft))
  }

  lemma DecideIsNear(f: Fill)
    requires f.Working() && KnownRate(f.rate) && NearOk(f.rate, f.log, f.queue)
    ensures NearOk(f.rate, Decide(f).log, Decide(f).queue) && Decide(f).queue[0].eased
  {
    if !f.queue[0].eased {
      WhenADecisionIsForced(f);
      FiftyMilliseconds(f.rate, AheadBy(f));
    }
  }

  lemma QuietCellsAreNear(rate: int, log: seq<Cell>, more: seq<Cell>, queue: seq<Queued>)
    requires NearOk(rate, log, queue) && forall i | 0 <= i < |more| :: CellNear(rate, more[i])
    ensures NearOk(rate, log + more, queue)
  {
    var all := log + more;
    forall i | 0 <= i < |all| ensures CellNear(rate, all[i]) {
      assert i < |log| ==> all[i] == log[i];
    }
  }

  lemma PlacedIsNear(f: Fill)
    requires f.Working() && f.queue[0].off < |f.queue[0].pcm| && f.queue[0].eased && NearOk(f.rate, f.log, f.queue)
    requires OnlyTheHead(f.queue)
    ensures NearOk(f.rate, Placed(f).log, Placed(f).queue)
  {
    hide RampFrame, Mean;
    assert f.queue[1..] != [] ==> Untouched(f.queue[1]);
    var g := Placed(f);
    QuietCellsAreNear(f.rate, f.log, g.log[|f.log|..], f.queue);
    assert g.log == f.log + g.log[|f.log|..];
  }

  lemma StepIsNear(f: Fill)
    requires f.Working() && KnownRate(f.rate) && OffsetsFit(f.queue) && OnlyTheHead(f.queue)
    requires NearOk(f.rate, f.log, f.queue)
    ensures NearOk(f.rate, Step(f).log, Step(f).queue)
  {
    hide NearOk, Placed;
    if |f.queue[0].pcm| == 0 {
      TailIsNear(f.rate, f.log, f.queue);
    } else {
      DecideIsNear(f);
      DecideKeeps(f);
      PlacedIsNear(Decide(f));
    }
  }

  lemma TailIsNear(rate: int, log: seq<Cell>, queue: seq<Queued>)
    requires NearOk(rate, log, queue) && queue != [] && OnlyTheHead(queue)
    ensures NearOk(rate, log, queue[1..])
  {
    assert queue[1..] != [] ==> Untouched(queue[1]);
  }

  lemma {:induction false} FinishedIsNear(f: Fill, written: seq<Written>)
    requires KnownRate(f.rate) && FillOk(f, written) && NearOk(f.rate, f.log, f.queue)
    ensures NearOk(f.rate, Finished(f).log, Finished(f).queue)
    decreases |f.queue|, f.frames - f.pos, HeadLeft(f)
  {
    hide NearOk, Heard, DueOrder, Labelled, Step, Unread;
    if f.pos < f.frames && f.queue != [] {
      StepMakesProgress(f);
      StepKeeps(f, written);
      StepIsNear(f);
      FinishedIsNear(Step(f), written);
    }
  }

  predicate StateNear(s: State) {
    NearOk(s.rate, s.past.log, s.queue)
  }

  lemma ReadIsNear(s: State, frames: nat)
    requires Valid(s) && StateNear(s)
    ensures StateNear(Read(s, frames))
  {
    hide NearOk, HeadOnTime, FramesOf, Unread, Heard;
    if Reading(s) && s.map_.anchored {
      var f := ToFill(s, frames);
      EntryIsOk(s, frames);
      FinishedStaysInBlock(f);
      FinishedIsNear(f, s.past.written);
      var g := Finished(f);
      QuietCellsAreNear(s.rate, g.log, seq(g.frames - g.pos, _ => Dry), g.queue);
    } else if Reading(s) {
      QuietCellsAreNear(s.rate, s.past.log, seq(frames, _ => Blind), s.queue);
    }
  }

  lemma SameHeadIsNear(rate: int, log: seq<Cell>, queue: seq<Queued>, rest: seq<Queued>)
    requires NearOk(rate, log, queue)
    requires rest != [] ==> !rest[0].eased || (queue != [] && rest[0] == queue[0])
    ensures NearOk(rate, log, rest)
  {
  }

  lemma WriteIsNear(s: State, now: int, at: int, pcm: seq<Byte>)
    requires Valid(s) && StateNear(s)
    ensures StateNear(Write(s, now, at, pcm))
  {
    hide NearOk, Heard, FramesOf, Unread;
    var t := Write(s, now, at, pcm);
    if Refused(s, now, at, pcm) == None {
      var i, c := Slot(s.queue, at, |s.queue|), Fresh(at, Decode(pcm), |s.past.written|);
      InsertedIndexes(s.queue, i, c);
      SameHeadIsNear(s.rate, s.past.log, s.queue, t.queue);
    }
  }

  lemma ApplyIsNear(s: State, op: Op)
    requires Valid(s) && StateNear(s)
    ensures StateNear(Apply(s, op))
  {
    ValidIsReady(s);
    hide Valid, NearOk, Read, Write, Place;
    match op
    case OpRead(frames) => ReadIsNear(s, frames);
    case OpWrite(now, at, pcm) => WriteIsNear(s, now, at, pcm);
    case OpPlace(p) =>
      PlaceTouchesOnlyTheMapping(s, p);
      SameHeadIsNear(s.rate, s.past.log, s.queue, Place(s, p).0.queue);
    case _ => SameHeadIsNear(s.rate, s.past.log, s.queue, Apply(s, op).queue);
  }

  lemma {:induction false} RunIsNear(s: State, ops: seq<Op>)
    requires Valid(s) && StateNear(s)
    ensures StateNear(Run(s, ops))
    decreases |ops|
  {
    ValidIsReady(s);
    hide Valid, Apply, StateNear;
    if ops != [] {
      ApplyKeepsValid(s, ops[0]);
      ApplyIsNear(s, ops[0]);
      RunIsNear(Apply(s, ops[0]), ops[1..]);
    }
  }

  lemma NewStateIsNear(rate: int)
    ensures StateNear(NewState(rate))
  {
  }

  /**
   Over every run: no frame goes out more than 50 ms and a frame from the frame its
   timestamp named when it was placed, and one not placed softly not at all.
   */
  lemma EveryFrameIsNearItsTime(s: State, i: nat)
    requires Reachable(s) && i < |s.past.log| && s.past.log[i].Played?
    ensures var c := s.past.log[i];
      20 * (Abs(c.place - c.due) - 1) <= s.rate && (!c.soft ==> c.place == c.due) && c.place + c.off == i
  {
    ReachableIsNear(s);
    EveryFrameFollowsTheRule(s, i);
    assert CellNear(s.rate, s.past.log[i]);
  }

  lemma ReachableIsNear(s: State)
    requires Reachable(s)
    ensures StateNear(s)
  {
    hide Valid, StateNear;
    var rate, ops := ReachableByARun(s);
    NewStateIsValid(rate);
    NewStateIsNear(rate);
    RunIsNear(NewState(rate), ops);
  }

  /**
   Of every block: a frame of a chunk not part-played before it goes out within 50 ms
   and a frame of where its timestamp falls under the mapping of the block.
   */
  lemma AudioPlaysNearItsTime(s: State, frames: nat, log: seq<Cell>, i: nat)
    requires Reachable(s) && Ready(s) && Reading(s) && s.map_.anchored
    requires log == Read(s, frames).past.log && s.index <= i < |log| && log[i].Played?
    requires s.queue != [] && s.queue[0].off > 0 ==> s.queue[0].id != log[i].id
    ensures log[i].id < |s.past.written|
    ensures var named := s.map_.originIndex + FrameCount(s.rate, s.past.written[log[i].id].at - s.map_.origin);
      20 * (Abs(i - log[i].off - named) - 1) <= s.rate
  {
    ReachableIsValid(s);
    ReachableIsNear(s);
    hide Reachable, Valid, Read;
    PlayedAudioIsLabelled(s, frames, log, i);
    ReadIsNear(s, frames);
    ReadKeepsTheRate(s, frames);
    assert CellNear(s.rate, log[i]);
  }

  lemma ReadKeepsTheRate(s: State, frames: nat)
    requires Ready(s)
    ensures Read(s, frames).rate == s.rate
  {
    ReadStaysReady(s, frames);
  }
}
