/**
 What becomes of every frame a stream accepts (internal/audio/stream.go:157-238,
 331-420): it is still queued, or went out, or was behind when its chunk was cut or
 dropped, or was thrown away; and never two of these.
 */
module StreamFates {
  import opened GoInt
  import opened StreamModel
  import opened StreamState
  import opened StreamFill
  import opened StreamSeams
  import opened StreamRuns
  import opened StreamLeads
  import opened StreamCuts
  import opened Wrappers

  predicate Holds(c: Queued, id: nat, o: nat) {
    c.id == id && c.off <= o < |c.pcm|
  }

  /** Frame `o` of a chunk is still to be heard. */
  predicate Waits(queue: seq<Queued>, id: nat, o: nat) {
    exists i :: 0 <= i < |queue| && Holds(queue[i], id, o)
  }

  /** In this turn the frame is one of the head's and its place is behind. */
  predicate IsBehind(f: Fill, id: nat, o: nat)
    requires f.Working()
  {
    Holds(f.queue[0], id, o) && Decide(f).queue[0].place + o < f.Want()
  }

  /** In some turn of the block. */
  predicate Overtaken(f: Fill, id: nat, o: nat)
    requires f.rate > 0 && OffsetsFit(f.queue) && f.pos <= f.frames
    decreases |f.queue|, f.frames - f.pos, HeadLeft(f)
  {
    if !f.Working() then false
    else
      StepMakesProgress(f);
      IsBehind(f, id, o) || Overtaken(Step(f), id, o)
  }

  predicate OneOf(a: bool, b: bool, c: bool) {
    (a || b || c) && !(a && b) && !(a && c) && !(b && c)
  }

  // ---------- one turn ----------

  /** What is behind is what the turn counts late or trimmed, and it is all it counts. */
  lemma ATurnLosesWhatIsBehind(f: Fill)
    requires f.Working() && OffsetsFit(f.queue)
    ensures var lost := Step(f).late + Step(f).trimmed - f.late - f.trimmed;
      && 0 <= lost <= |f.queue[0].pcm| - f.queue[0].off
      && forall o | f.queue[0].off <= o < |f.queue[0].pcm| ::
           IsBehind(f, f.queue[0].id, o) <==> o < f.queue[0].off + lost
  {
    if |f.queue[0].pcm| > 0 {
      DecideKeeps(f);
    }
  }

  /**
   A head that has its place is behind only by what went out without a mapping. A
   chunk placed in this turn is behind with its first frame, if it is soft, and with
   the frames whose time is before the one the block has come to, if it is not.
   */
  lemma OnlyWhatComesLateIsBehind(f: Fill, o: nat)
    requires f.Working() && KnownRate(f.rate) && OffsetsFit(f.queue) && OnlyTheHead(f.queue)
    requires InStep(f) || Lag(f) > 0
    requires IsBehind(f, f.queue[0].id, o)
    ensures if f.queue[0].eased then o < f.queue[0].off + Lag(f)
            else if Decide(f).queue[0].soft then o == 0
            else f.FrameAt(f.queue[0].at) + o < f.Want()
  {
    if !f.queue[0].eased {
      DecideMovesOneFrame(f);
    }
  }

  lemma HeadIsAlone(f: Fill, id: nat, o: nat, written: seq<Written>)
    requires f.Working() && FillOk(f, written) && Waits(f.queue, id, o)
    ensures if f.queue[0].id == id then Holds(f.queue[0], id, o) && !Waits(f.queue[1..], id, o)
            else Waits(f.queue[1..], id, o)
  {
    var i :| 0 <= i < |f.queue| && Holds(f.queue[i], id, o);
    if f.queue[0].id == id {
      assert forall j | 0 < j < |f.queue| :: f.queue[j].id != id;
    } else {
      assert f.queue[1..][i - 1] == f.queue[i];
    }
  }

  /** A turn keeps the rest of the queue; what it does to the head and puts out is the head's own. */
  predicate TouchesTheHead(f: Fill, g: Fill)
    requires f.Working()
  {
    && f.log <= g.log
    && (g.queue == f.queue[1..] || IsFurther(f.queue, g.queue))
    && forall i | |f.log| <= i < |g.log| && g.log[i].Played? ::
         g.log[i].id == f.queue[0].id && f.queue[0].off <= g.log[i].off < |f.queue[0].pcm|
  }

  predicate IsFurther(before: seq<Queued>, after: seq<Queued>) {
    && |before| == |after| > 0 && after[1..] == before[1..]
    && after[0].id == before[0].id && after[0].pcm == before[0].pcm && before[0].off <= after[0].off
  }

  /** Each frame of the head is left to it, or goes out in this turn, or is behind. */
  predicate AccountsFor(f: Fill, g: Fill, o: nat)
    requires f.Working()
  {
    var c := f.queue[0];
    OneOf(|g.queue| == |f.queue| && Holds(g.queue[0], c.id, o), Out(g.log, |f.log|, c.id, o), c.place + o < f.Want())
  }

  lemma PlayingAccounts(d: Fill, n: nat, o: nat)
    requires d.Working() && 0 < n && d.queue[0].off + n <= |d.queue[0].pcm|
    requires d.queue[0].place + d.queue[0].off == d.Want() && Holds(d.queue[0], d.queue[0].id, o)
    ensures TouchesTheHead(d, PlayHead(d, n)) && AccountsFor(d, PlayHead(d, n), o)
  {
    hide Mean;
    var c, g := d.queue[0], PlayHead(d, n);
    var cells := PlayedCells(c, n, d.lastOut);
    assert forall i | |d.log| <= i < |g.log| :: g.log[i] == cells[i - |d.log|];
    if o < c.off + n {
      assert IsFrame(g.log[|d.log| + o - c.off], c.id, o);
    }
  }

  lemma PlacingAccounts(d: Fill, o: nat)
    requires d.Working() && d.queue[0].off < |d.queue[0].pcm| && Holds(d.queue[0], d.queue[0].id, o)
    ensures TouchesTheHead(d, Placed(d)) && AccountsFor(d, Placed(d), o)
  {
    hide RampFrame, PlayHead;
    var start, left := d.queue[0].place + d.queue[0].off, |d.queue[0].pcm| - d.queue[0].off;
    if start == d.Want() {
      PlayingAccounts(d, Min(d.frames - d.pos, left), o);
    }
  }

  lemma StepAccounts(f: Fill, o: nat)
    requires f.Working() && OffsetsFit(f.queue) && Holds(f.queue[0], f.queue[0].id, o)
    ensures var g, id := Step(f), f.queue[0].id;
      && TouchesTheHead(f, g)
      && OneOf(|g.queue| == |f.queue| && Holds(g.queue[0], id, o), Out(g.log, |f.log|, id, o), IsBehind(f, id, o))
  {
    hide Placed;
    DecideKeeps(f);
    PlacingAccounts(Decide(f), o);
  }

  lemma StepTouchesTheHead(f: Fill)
    requires f.Working() && OffsetsFit(f.queue)
    ensures TouchesTheHead(f, Step(f))
  {
    if |f.queue[0].pcm| > 0 {
      StepAccounts(f, f.queue[0].off);
    }
  }

  // ---------- one block ----------

  /** What was never queued, or no longer is, is not heard of again. */
  lemma {:induction false} WhatIsGoneIsGone(f: Fill, id: nat, o: nat)
    requires f.rate > 0 && OffsetsFit(f.queue) && f.pos <= f.frames && !Waits(f.queue, id, o)
    ensures !Waits(Finished(f).queue, id, o) && !Out(Finished(f).log, |f.log|, id, o) && !Overtaken(f, id, o)
    ensures f.log <= Finished(f).log
    decreases |f.queue|, f.frames - f.pos, HeadLeft(f)
  {
    hide Step, Decide;
    if f.Working() {
      StepMakesProgress(f);
      StepTouchesTheHead(f);
      NotAwaited(f.queue, Step(f).queue, id, o);
      WhatIsGoneIsGone(Step(f), id, o);
      assert Holds(f.queue[0], id, o) ==> Waits(f.queue, id, o);
      forall i | |f.log| <= i < |Step(f).log| ensures !IsFrame(Step(f).log[i], id, o) {
      }
    }
  }

  lemma NotAwaited(before: seq<Queued>, after: seq<Queued>, id: nat, o: nat)
    requires before != [] && (after == before[1..] || IsFurther(before, after)) && !Waits(before, id, o)
    ensures !Waits(after, id, o)
  {
    forall i | 0 <= i < |after| ensures !Holds(after[i], id, o) {
      if after == before[1..] {
        assert !Holds(before[i + 1], id, o);
      } else {
        assert !Holds(before[i], id, o) && (i > 0 ==> after[i] == before[1..][i - 1]);
      }
    }
  }

  lemma OutSplits(log: seq<Cell>, more: seq<Cell>, from: nat, id: nat, o: nat)
    requires log <= more && from <= |log|
    ensures Out(more, from, id, o) <==> Out(log, from, id, o) || Out(more, |log|, id, o)
  {
    if Out(log, from, id, o) {
      var i :| from <= i < |log| && IsFrame(log[i], id, o);
      assert IsFrame(more[i], id, o);
    }
    if Out(more, from, id, o) {
      var i :| from <= i < |more| && IsFrame(more[i], id, o);
      assert i < |log| ==> IsFrame(log[i], id, o);
    }
  }

  /** One turn: the frame waits on, or goes out, or is behind. */
  lemma OneFateATurn(f: Fill, written: seq<Written>, id: nat, o: nat)
    requires f.Working() && FillOk(f, written) && OffsetsFit(f.queue) && Waits(f.queue, id, o)
    ensures OneOf(Waits(Step(f).queue, id, o), Out(Step(f).log, |f.log|, id, o), IsBehind(f, id, o))
    ensures f.log <= Step(f).log
  {
    HeadIsAlone(f, id, o, written);
    StepTouchesTheHead(f);
    hide Step, Decide, FillOk;
    var g := Step(f);
    if f.queue[0].id == id {
      StepAccounts(f, o);
      if |g.queue| == |f.queue| {
        assert g.queue[1..] == f.queue[1..];
        WaitsOf(g.queue, id, o);
      }
    } else {
      assert !Out(g.log, |f.log|, id, o);
      if |g.queue| == |f.queue| {
        WaitsOf(g.queue, id, o);
      }
    }
  }

  lemma WaitsOf(queue: seq<Queued>, id: nat, o: nat)
    requires queue != []
    ensures Waits(queue, id, o) <==> Holds(queue[0], id, o) || Waits(queue[1..], id, o)
  {
    if Waits(queue, id, o) {
      var i :| 0 <= i < |queue| && Holds(queue[i], id, o);
      assert i > 0 ==> Holds(queue[1..][i - 1], id, o);
    }
    if Waits(queue[1..], id, o) {
      var i :| 0 <= i < |queue| - 1 && Holds(queue[1..][i], id, o);
      assert Holds(queue[i + 1], id, o);
    }
  }

  lemma {:induction false} OneFateABlock(f: Fill, written: seq<Written>, id: nat, o: nat)
    requires FillOk(f, written) && OffsetsFit(f.queue) && Waits(f.queue, id, o)
    ensures OneOf(Waits(Finished(f).queue, id, o), Out(Finished(f).log, |f.log|, id, o), Overtaken(f, id, o))
    decreases |f.queue|, f.frames - f.pos, HeadLeft(f)
  {
    hide Heard, Shape, Step, Waits, Out, IsBehind;
    if f.Working() {
      StepMakesProgress(f);
      StepKeeps(f, written);
      OneFateATurn(f, written, id, o);
      var g := Step(f);
      if Waits(g.queue, id, o) {
        OneFateABlock(g, written, id, o);
      } else {
        WhatIsGoneIsGone(g, id, o);
      }
      FinishedOnlyAppends(g);
      OutSplits(g.log, Finished(f).log, |f.log|, id, o);
    } else {
      assert !Out(f.log, |f.log|, id, o) by { NothingYet(f.log, id, o); }
    }
  }

  lemma NothingYet(log: seq<Cell>, id: nat, o: nat)
    ensures !Out(log, |log|, id, o)
  {
  }

  // ---------- one call ----------

  /** A call takes a frame back, or comes too late for it. */
  predicate Loses(s: State, op: Op, id: nat, o: nat)
    requires Ready(s)
  {
    match op
    case OpRead(frames) => Reading(s) && s.map_.anchored && Overtaken(ToFill(s, frames), id, o)
    case OpFinish => Reading(s) && Waits(s.queue, id, o)
    case OpClear => Waits(s.queue, id, o)
    case _ => false
  }

  lemma SilenceIsNoFrame(log: seq<Cell>, more: seq<Cell>, from: nat, id: nat, o: nat)
    requires from <= |log| && forall i | 0 <= i < |more| :: !more[i].Played?
    ensures Out(log + more, from, id, o) <==> Out(log, from, id, o)
  {
    OutSplits(log, log + more, from, id, o);
    assert forall i | |log| <= i < |log| + |more| :: (log + more)[i] == more[i - |log|];
  }

  lemma WriteChangesNoOther(s: State, now: int, at: int, pcm: seq<Byte>, id: nat, o: nat)
    requires s.rate > 0 && id < |s.past.written|
    ensures Waits(Write(s, now, at, pcm).queue, id, o) <==> Waits(s.queue, id, o)
  {
    hide Waits;
    if Refused(s, now, at, pcm) == None {
      var i, c := Slot(s.queue, at, |s.queue|), Fresh(at, Decode(pcm), |s.past.written|);
      InsertedIndexes(s.queue, i, c);
      OneMoreWaits(s.queue, Inserted(s.queue, i, c), i, id, o);
    }
  }

  lemma OneMoreWaits(before: seq<Queued>, after: seq<Queued>, i: nat, id: nat, o: nat)
    requires i <= |before| && |after| == |before| + 1 && after[i].id != id
    requires forall k | 0 <= k < i :: after[k] == before[k]
    requires forall k | i < k < |after| ::
               after[k] == if k == i + 1 then before[i].(eased := false) else before[k - 1]
    ensures Waits(after, id, o) <==> Waits(before, id, o)
  {
    if Waits(before, id, o) {
      var k :| 0 <= k < |before| && Holds(before[k], id, o);
      assert Holds(after[if k < i then k else k + 1], id, o);
    }
    if Waits(after, id, o) {
      var k :| 0 <= k < |after| && Holds(after[k], id, o);
      assert Holds(before[if k < i then k else k - 1], id, o);
    }
  }

  lemma PlaceChangesNone(s: State, p: Point, id: nat, o: nat)
    requires s.rate > 0
    ensures Waits(Place(s, p).0.queue, id, o) <==> Waits(s.queue, id, o)
  {
    hide Place;
    PlaceTouchesOnlyTheMapping(s, p);
    var q := Place(s, p).0.queue;
    forall i | 0 <= i < |q| ensures Holds(q[i], id, o) <==> Holds(s.queue[i], id, o) {
    }
  }

  lemma FillIsOk(s: State, frames: nat)
    requires Valid(s) && s.map_.anchored
    ensures FillOk(ToFill(s, frames), s.past.written) && |s.past.log| == s.index
  {
    EntryIsOk(s, frames);
  }

  lemma OneFateARead(s: State, frames: nat, id: nat, o: nat)
    requires Valid(s) && Waits(s.queue, id, o) && Reading(s) && s.map_.anchored
    ensures Ready(s) && s.past.log <= Read(s, frames).past.log
    ensures OneOf(Waits(Read(s, frames).queue, id, o), Out(Read(s, frames).past.log, s.index, id, o),
                  Loses(s, OpRead(frames), id, o))
  {
    hide Valid, Waits, Out, FillOk, Overtaken, InStep, Lag;
    ValidIsReady(s);
    var f := ToFill(s, frames);
    FillIsOk(s, frames);
    FinishedStaysInBlock(f);
    FinishedOnlyAppends(f);
    OneFateABlock(f, s.past.written, id, o);
    var g := Finished(f);
    SilenceIsNoFrame(g.log, seq(g.frames - g.pos, _ => Dry), s.index, id, o);
  }

  /** One call: a frame that waits does so still, or went out, or was lost to the call. */
  lemma OneFateACall(s: State, op: Op, id: nat, o: nat)
    requires Valid(s) && Waits(s.queue, id, o) && id < |s.past.written|
    ensures Ready(s) && |s.past.log| == s.index && s.past.log <= Apply(s, op).past.log
    ensures var t := Apply(s, op);
      OneOf(Waits(t.queue, id, o), Out(t.past.log, s.index, id, o), Loses(s, op, id, o))
  {
    ValidIsReady(s);
    hide Valid, Waits, Overtaken, Out, Place, Write;
    NothingYet(s.past.log, id, o);
    match op
    case OpWrite(now, at, pcm) =>
      WriteChangesNoOther(s, now, at, pcm, id, o);
      WriteLeavesTheLog(s, now, at, pcm);
    case OpPlace(p) =>
      PlaceChangesNone(s, p, id, o);
      PlaceTouchesOnlyTheMapping(s, p);
    case OpRead(frames) =>
      if Reading(s) && s.map_.anchored {
        OneFateARead(s, frames, id, o);
      } else {
        SilenceIsNoFrame(s.past.log, seq(frames, _ => Blind), s.index, id, o);
      }
    case _ => NoneWaits(id, o);
  }

  lemma WriteLeavesTheLog(s: State, now: int, at: int, pcm: seq<Byte>)
    requires s.rate > 0
    ensures Write(s, now, at, pcm).past.log == s.past.log
  {
  }

  lemma NoneWaits(id: nat, o: nat)
    ensures !Waits([], id, o)
  {
  }

  /** What waits no longer never does again, never goes out, and cannot be lost twice. */
  lemma GoneForThisCall(s: State, op: Op, id: nat, o: nat)
    requires Valid(s) && !Waits(s.queue, id, o) && id < |s.past.written|
    ensures Ready(s) && |s.past.log| == s.index && s.past.log <= Apply(s, op).past.log
    ensures var t := Apply(s, op);
      !Waits(t.queue, id, o) && !Out(t.past.log, s.index, id, o) && !Loses(s, op, id, o)
  {
    ValidIsReady(s);
    hide Valid, Waits, Overtaken, Out, Place, Write;
    NothingYet(s.past.log, id, o);
    match op
    case OpWrite(now, at, pcm) =>
      WriteChangesNoOther(s, now, at, pcm, id, o);
      WriteLeavesTheLog(s, now, at, pcm);
    case OpPlace(p) =>
      PlaceChangesNone(s, p, id, o);
      PlaceTouchesOnlyTheMapping(s, p);
    case OpRead(frames) =>
      if Reading(s) && s.map_.anchored {
        GoneForThisRead(s, frames, id, o);
      } else {
        SilenceIsNoFrame(s.past.log, seq(frames, _ => Blind), s.index, id, o);
      }
    case _ => NoneWaits(id, o);
  }

  lemma GoneForThisRead(s: State, frames: nat, id: nat, o: nat)
    requires Ready(s) && |s.past.log| == s.index && !Waits(s.queue, id, o) && Reading(s) && s.map_.anchored
    ensures var t := Read(s, frames);
      && s.past.log <= t.past.log
      && !Waits(t.queue, id, o) && !Out(t.past.log, s.index, id, o) && !Loses(s, OpRead(frames), id, o)
  {
    hide Waits, Out, Overtaken;
    var f := ToFill(s, frames);
    FinishedStaysInBlock(f);
    WhatIsGoneIsGone(f, id, o);
    var g := Finished(f);
    SilenceIsNoFrame(g.log, seq(g.frames - g.pos, _ => Dry), s.index, id, o);
  }

  // ---------- every run ----------

  /** Some call of a run loses the frame. */
  predicate LostAlong(s: State, ops: seq<Op>, id: nat, o: nat)
    requires Ready(s)
    decreases |ops|
  {
    if ops == [] then false
    else
      ApplyStaysReady(s, ops[0]);
      Loses(s, ops[0], id, o) || LostAlong(Apply(s, ops[0]), ops[1..], id, o)
  }

  lemma WrittenStays(s: State, op: Op)
    requires Ready(s)
    ensures s.past.written <= Apply(s, op).past.written
  {
    hide Place, FinishedInBlock;
    if op.OpPlace? {
      PlaceTouchesOnlyTheMapping(s, op.p);
    }
  }

  lemma {:induction false} GoneForGood(s: State, ops: seq<Op>, id: nat, o: nat)
    requires Valid(s) && !Waits(s.queue, id, o) && id < |s.past.written|
    ensures Ready(s) && |s.past.log| == s.index && s.past.log <= Run(s, ops).past.log
    ensures var t := Run(s, ops);
      !Waits(t.queue, id, o) && !Out(t.past.log, s.index, id, o) && !LostAlong(s, ops, id, o)
    decreases |ops|
  {
    hide Valid, Waits, Out, Apply, Loses;
    ValidIsReady(s);
    if ops == [] {
      NothingYet(s.past.log, id, o);
    } else {
      GoneForThisCall(s, ops[0], id, o);
      WrittenStays(s, ops[0]);
      ApplyKeepsValid(s, ops[0]);
      var t := Apply(s, ops[0]);
      GoneForGood(t, ops[1..], id, o);
      OutSplits(t.past.log, Run(t, ops[1..]).past.log, s.index, id, o);
    }
  }

  lemma {:induction false} OneFateARun(s: State, ops: seq<Op>, id: nat, o: nat)
    requires Valid(s) && Waits(s.queue, id, o) && id < |s.past.written|
    ensures Ready(s) && |s.past.log| == s.index && s.past.log <= Run(s, ops).past.log
    ensures var t := Run(s, ops);
      OneOf(Waits(t.queue, id, o), Out(t.past.log, s.index, id, o), LostAlong(s, ops, id, o))
    decreases |ops|
  {
    hide Valid, Waits, Out, Apply, Loses;
    ValidIsReady(s);
    if ops == [] {
      NothingYet(s.past.log, id, o);
    } else {
      OneFateACall(s, ops[0], id, o);
      WrittenStays(s, ops[0]);
      ApplyKeepsValid(s, ops[0]);
      var t := Apply(s, ops[0]);
      if Waits(t.queue, id, o) {
        OneFateARun(t, ops[1..], id, o);
      } else {
        GoneForGood(t, ops[1..], id, o);
      }
      OutSplits(t.past.log, Run(t, ops[1..]).past.log, s.index, id, o);
    }
  }

  lemma AcceptedWaits(s: State, now: int, at: int, pcm: seq<Byte>, o: nat)
    requires Valid(s) && Refused(s, now, at, pcm) == None && o < |Decode(pcm)|
    ensures Waits(Write(s, now, at, pcm).queue, |s.past.written|, o)
  {
    hide Decode;
    var i, c := Slot(s.queue, at, |s.queue|), Fresh(at, Decode(pcm), |s.past.written|);
    InsertedIndexes(s.queue, i, c);
    assert Holds(Inserted(s.queue, i, c)[i], |s.past.written|, o);
  }

  /**
   Of every chunk a stream accepts, and whatever calls come after, each frame has one
   fate and one only: it waits; or it is in the timeline; or it was lost, behind the
   stream at a turn of some block or thrown away by an end or a clearing.
   */
  lemma EveryFrameHasOneFate(s: State, now: int, at: int, pcm: seq<Byte>, ops: seq<Op>, o: nat)
    requires Reachable(s) && Ready(s) && Refused(s, now, at, pcm) == None && o < |Decode(pcm)|
    ensures Ready(Write(s, now, at, pcm))
    ensures var t, id := Write(s, now, at, pcm), |s.past.written|;
      OneOf(Waits(Run(t, ops).queue, id, o), Out(Run(t, ops).past.log, 0, id, o), LostAlong(t, ops, id, o))
  {
    hide Valid, Waits, Write, Run, Decode, LostAlong;
    ReachableIsValid(s);
    var t, id := Write(s, now, at, pcm), |s.past.written|;
    ValidIsReady(s);
    WriteIsACall(s, now, at, pcm);
    AcceptedWaits(s, now, at, pcm, o);
    OneFateARun(t, ops, id, o);
    NewChunkIsNotOut(s, o);
    WriteLeavesTheLog(s, now, at, pcm);
    OutSplits(t.past.log, Run(t, ops).past.log, 0, id, o);
  }

  lemma WriteIsACall(s: State, now: int, at: int, pcm: seq<Byte>)
    requires Valid(s) && Ready(s)
    ensures Valid(Write(s, now, at, pcm)) && Ready(Write(s, now, at, pcm))
    ensures Refused(s, now, at, pcm) == None ==> |s.past.written| < |Write(s, now, at, pcm).past.written|
  {
    hide Valid;
    ApplyKeepsValid(s, OpWrite(now, at, pcm));
    ValidIsReady(Write(s, now, at, pcm));
  }

  lemma NewChunkIsNotOut(s: State, o: nat)
    requires Valid(s)
    ensures !Out(s.past.log, 0, |s.past.written|, o)
  {
    forall i | 0 <= i < |s.past.log| ensures !IsFrame(s.past.log[i], |s.past.written|, o) {
      assert FollowsTheRule(s.past.log[i], i, s.past.written);
    }
  }
}
