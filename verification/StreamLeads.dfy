/**
 What a ramp at the end of a block leads to (internal/audio/stream.go:331-403): the
 next block goes on with its frame, unless a call in between puts something else
 there.
 */
module StreamLeads {
  import opened GoInt
  import opened StreamModel
  import opened StreamState
  import opened StreamFill
  import opened StreamJoins
  import opened StreamRuns
  import opened Wrappers

  // ---------- the first frame of a block ----------

  /** Nothing of the head is left to be heard: it is empty, or entirely late once it is placed. */
  predicate IsPast(f: Fill)
    requires f.Working()
  {
    |f.queue[0].pcm| == 0 || Decide(f).queue[0].place + |f.queue[0].pcm| <= f.Want()
  }

  /** The filling of a block once the chunks of which nothing will be heard are gone. */
  function PassedOver(f: Fill): Fill
    requires f.rate > 0 && OffsetsFit(f.queue) && f.pos <= f.frames
    decreases |f.queue|
  {
    if f.Working() && IsPast(f) then
      StepMakesProgress(f);
      PassedOver(Step(f))
    else f
  }

  /** The first chunk of which anything is left is this one, and its place is right here. */
  predicate GoesOnWith(f: Fill, id: nat)
    requires f.rate > 0 && OffsetsFit(f.queue) && f.pos <= f.frames
  {
    var g := PassedOver(f);
    g.Working() && var c := Decide(g).queue[0]; c.id == id && c.place + c.off == g.Want()
  }

  lemma PassingPutsNothingOut(f: Fill)
    requires f.Working() && OffsetsFit(f.queue) && IsPast(f)
    ensures var g := Step(f);
      g.queue == f.queue[1..] && g.log == f.log && g.pos == f.pos && g.index == f.index
  {
    hide WaitForHead, PlayHead, CutHead;
    if |f.queue[0].pcm| > 0 {
      DecideKeeps(f);
    }
  }

  lemma {:induction false} PassedOverIsOnTheWay(f: Fill)
    requires f.rate > 0 && OffsetsFit(f.queue) && f.pos <= f.frames
    ensures var g := PassedOver(f);
      && g.rate > 0 && OffsetsFit(g.queue) && g.pos <= g.frames && Finished(g) == Finished(f)
      && g.log == f.log && g.pos == f.pos && g.index == f.index && g.frames == f.frames
      && |g.queue| <= |f.queue| && g.queue == f.queue[|f.queue| - |g.queue|..]
      && (g.Working() ==> !IsPast(g))
    decreases |f.queue|
  {
    hide Step, IsPast;
    if f.Working() && IsPast(f) {
      StepMakesProgress(f);
      PassingPutsNothingOut(f);
      PassedOverIsOnTheWay(Step(f));
    }
  }

  lemma {:induction false} FinishedOnlyAppends(f: Fill)
    requires f.rate > 0 && OffsetsFit(f.queue) && f.pos <= f.frames
    ensures f.log <= Finished(f).log
    decreases |f.queue|, f.frames - f.pos, HeadLeft(f)
  {
    if f.Working() {
      StepMakesProgress(f);
      if |f.queue[0].pcm| > 0 {
        DecideKeeps(f);
      }
      assert f.log <= Step(f).log;
      hide Step;
      FinishedOnlyAppends(Step(f));
    }
  }

  predicate StartsWith(log: seq<Cell>, at: nat, id: nat, off: nat) {
    at < |log| && log[at].Played? && log[at].id == id && log[at].off == off
  }

  lemma PlayingStartsWithTheHead(f: Fill, n: nat)
    requires f.Working() && 0 < n && f.queue[0].off + n <= |f.queue[0].pcm|
    ensures var c, log := f.queue[0], PlayHead(f, n).log;
      StartsWith(log, |f.log|, c.id, c.off)
      && (!c.seam ==> log[|f.log|].seam.None? && log[|f.log|].value == c.pcm[c.off])
  {
    hide Mean;
    assert PlayHead(f, n).log[|f.log|] == PlayedCells(f.queue[0], n, f.lastOut)[0];
  }

  lemma StepTakesItsTurn(f: Fill)
    requires f.Working() && OffsetsFit(f.queue) && !IsPast(f)
    ensures var d := Decide(f);
      && d.Working() && d.queue[0].off < |d.queue[0].pcm| && Turned(d, Step(f)) && d.log == f.log
      && d.queue[0].place + |d.queue[0].pcm| > d.Want() == f.Want() && d.frames == f.frames && d.pos == f.pos
      && d.queue[0] == f.queue[0].(eased := true, soft := d.queue[0].soft, place := d.queue[0].place,
                                   due := d.queue[0].due)
  {
    DecideKeeps(f);
    hide Decide, DropHead, CutHead, WaitForHead, PlayHead;
  }

  lemma TurnsToPlay(d: Fill, g: Fill)
    requires d.Working() && d.queue[0].off < |d.queue[0].pcm| && Turned(d, g)
    requires d.queue[0].place + d.queue[0].off == d.Want()
    ensures var c := d.queue[0];
      StartsWith(g.log, |d.log|, c.id, c.off)
      && (!c.seam ==> g.log[|d.log|].seam.None? && g.log[|d.log|].value == c.pcm[c.off])
  {
    hide PlayHead;
    PlayingStartsWithTheHead(d, Min(d.frames - d.pos, |d.queue[0].pcm| - d.queue[0].off));
  }

  /** A head placed right here is heard at once, from where it has got to. */
  lemma HeadIsHeard(f: Fill)
    requires f.Working() && OffsetsFit(f.queue) && !IsPast(f)
    requires Decide(f).queue[0].place + f.queue[0].off == f.Want()
    ensures var c, log := f.queue[0], Finished(f).log;
      StartsWith(log, |f.log|, c.id, c.off)
      && (!c.seam ==> log[|f.log|].seam.None? && log[|f.log|].value == c.pcm[c.off])
  {
    hide Step, Decide, IsPast, Turned, PlayHead;
    StepTakesItsTurn(f);
    StepMakesProgress(f);
    TurnsToPlay(Decide(f), Step(f));
    FinishedOnlyAppends(Step(f));
  }

  lemma CutHeadIsHeard(g: Fill)
    requires g.Working() && OffsetsFit(g.queue) && g.queue[0].eased
    requires 0 < g.queue[0].off < |g.queue[0].pcm| && g.queue[0].place + g.queue[0].off == g.Want()
    ensures StartsWith(Finished(g).log, |g.log|, g.queue[0].id, g.queue[0].off)
  {
    HeadIsHeard(g);
  }

  /** A turn of a decided head that is not due here: something else goes out, or frames are cut off. */
  lemma TurnsElsewhere(d: Fill, g: Fill)
    requires d.Working() && d.queue[0].eased && d.queue[0].off < |d.queue[0].pcm| && Turned(d, g)
    requires d.queue[0].place + |d.queue[0].pcm| > d.Want() && d.queue[0].place + d.queue[0].off != d.Want()
    ensures g.log == d.log ==>
              && g.Working() && g.queue[0].eased && g.queue[0].id == d.queue[0].id
              && d.queue[0].off < g.queue[0].off < |g.queue[0].pcm|
              && g.queue[0].place + g.queue[0].off == g.Want()
    ensures g.log != d.log ==> |g.log| > |d.log| && !g.log[|d.log|].Played?
  {
    hide RampFrame;
    var n := d.queue[0].place + d.queue[0].off - d.Want();
    if n > 0 {
      assert g == WaitForHead(d, Min(n, d.frames - d.pos)) && |g.log| > |d.log|;
    } else {
      assert g == CutHead(d, -n);
    }
  }

  /** One placed anywhere else is not: it waits, or has frames cut off first. */
  lemma HeadIsNotHeard(f: Fill)
    requires f.Working() && OffsetsFit(f.queue) && !IsPast(f)
    requires Decide(f).queue[0].place + f.queue[0].off != f.Want()
    ensures var c, log := f.queue[0], Finished(f).log;
      |log| > |f.log| && log[|f.log|].Played? ==> log[|f.log|].id == c.id && log[|f.log|].off > c.off
  {
    hide Step, IsPast, Decide, Turned;
    StepTakesItsTurn(f);
    StepMakesProgress(f);
    TurnsElsewhere(Decide(f), Step(f));
    if Step(f).log == f.log {
      CutHeadIsHeard(Step(f));
    } else {
      FinishedOnlyAppends(Step(f));
    }
  }

  /** What a block starts with, out of a queue that has the chunk `c` as it was, if at all. */
  lemma BlockStartsWith(f: Fill, c: Queued)
    requires f.rate > 0 && OffsetsFit(f.queue) && f.pos < f.frames && HasAsItWas(f.queue, c)
    ensures GoesOnWith(f, c.id) <==> StartsWith(Finished(f).log, |f.log|, c.id, c.off)
    ensures GoesOnWith(f, c.id) ==>
              c.off < |c.pcm| && Finished(f).log[|f.log|].seam.None? && Finished(f).log[|f.log|].value == c.pcm[c.off]
  {
    hide IsPast, PassedOver;
    PassedOverIsOnTheWay(f);
    var g := PassedOver(f);
    if g.Working() {
      assert g.queue[0] == f.queue[|f.queue| - |g.queue|];
      StepTakesItsTurn(g);
      hide Decide;
      if Decide(g).queue[0].place + g.queue[0].off == g.Want() {
        HeadIsHeard(g);
      } else {
        HeadIsNotHeard(g);
      }
    }
  }

  // ---------- calls that put nothing out ----------

  predicate HasAsItWas(queue: seq<Queued>, c: Queued) {
    forall i | 0 <= i < |queue| && queue[i].id == c.id ::
      queue[i].off == c.off && !queue[i].seam && queue[i].pcm == c.pcm
  }

  /** No call takes back what was put out. */
  lemma IndexOnlyGrows(s: State, op: Op)
    requires Valid(s)
    ensures Valid(Apply(s, op)) && Apply(s, op).index >= s.index
  {
    ApplyKeepsValid(s, op);
    ValidIsReady(s);
    hide Valid;
    if op.OpPlace? {
      PlaceTouchesOnlyTheMapping(s, op.p);
    }
  }

  lemma {:induction false} RunOnlyGrows(s: State, ops: seq<Op>)
    requires Valid(s)
    ensures Run(s, ops).index >= s.index
    decreases |ops|
  {
    hide Valid, Apply;
    ValidIsReady(s);
    if ops != [] {
      IndexOnlyGrows(s, ops[0]);
      RunOnlyGrows(Apply(s, ops[0]), ops[1..]);
    }
  }

  lemma WriteKeepsOthers(s: State, at: int, pcm: seq<Frame>, c: Queued)
    requires HasAsItWas(s.queue, c) && c.id < |s.past.written|
    ensures HasAsItWas(Accept(s, at, pcm).queue, c)
  {
    InsertedIndexes(s.queue, Slot(s.queue, at, |s.queue|), Fresh(at, pcm, |s.past.written|));
  }

  /** A call that puts nothing out leaves a waiting chunk as it was, if it leaves it at all. */
  lemma QuietCallsKeepTheRest(s: State, op: Op, c: Queued)
    requires Valid(s) && HasAsItWas(s.queue, c) && c.id < |s.past.written| && Apply(s, op).index == s.index
    ensures var t := Apply(s, op);
      HasAsItWas(t.queue, c) && c.id < |t.past.written|
  {
    ValidIsReady(s);
    hide Valid, Inserted, Slot, Finished;
    match op
    case OpWrite(now, at, pcm) =>
      if Refused(s, now, at, pcm) == None {
        WriteKeepsOthers(s, at, Decode(pcm), c);
      }
    case OpPlace(p) => PlaceTouchesOnlyTheMapping(s, p);
    case OpRead(frames) => AnEmptyReadChangesNoQueue(s, frames);
    case _ =>
  }

  lemma AnEmptyReadChangesNoQueue(s: State, frames: nat)
    requires Valid(s) && Read(s, frames).index == s.index
    ensures Read(s, frames).queue == s.queue && Read(s, frames).past.written == s.past.written
  {
    if Reading(s) && s.map_.anchored {
      FinishedStaysInBlock(ToFill(s, frames));
      assert frames == 0 && Finished(ToFill(s, 0)) == ToFill(s, 0);
    }
  }

  lemma {:induction false} QuietRunsKeepTheRest(s: State, ops: seq<Op>, c: Queued)
    requires Valid(s) && HasAsItWas(s.queue, c) && c.id < |s.past.written| && Run(s, ops).index == s.index
    ensures HasAsItWas(Run(s, ops).queue, c) && Valid(Run(s, ops))
    decreases |ops|
  {
    hide Valid, Apply, HasAsItWas;
    ValidIsReady(s);
    if ops != [] {
      IndexOnlyGrows(s, ops[0]);
      RunOnlyGrows(Apply(s, ops[0]), ops[1..]);
      QuietCallsKeepTheRest(s, ops[0], c);
      QuietRunsKeepTheRest(Apply(s, ops[0]), ops[1..], c);
    }
  }

  // ---------- what a ramp leads to ----------

  predicate EndsOnARamp(s: State) {
    s.past.log != [] && s.past.log[|s.past.log| - 1].Ramp?
  }

  /** The chunk a ramp at the end of a block leads to: it is placed, and due at once. */
  predicate Led(t: State)
    requires EndsOnARamp(t)
  {
    && t.queue != []
    && var c := t.queue[0];
       && c.eased && !c.seam && c.off < |c.pcm| && c.place + c.off == t.index
       && c.pcm[c.off] == t.past.log[|t.past.log| - 1].to
  }

  lemma ARampAtTheEndLeads(s: State, frames: nat)
    requires Valid(s) && Reading(s) && s.map_.anchored && frames > 0 && EndsOnARamp(Read(s, frames))
    ensures Valid(Read(s, frames)) && Led(Read(s, frames))
  {
    ReadKeepsValid(s, frames);
    var f := ToFill(s, frames);
    EntryIsOk(s, frames);
    FinishedStaysInBlock(f);
    FinishedKeepsJoins(f, s.past.written);
    FinishedKeeps(f, s.past.written);
    hide Finished, FillOk, LedTo, Joined, LastSounded, Shape, Heard, FramesOf, Unread;
    RunDryKeepsJoins(Finished(f), s.past.written);
  }

  lemma TheHeadIsItself(t: State)
    requires Valid(t) && EndsOnARamp(t) && Led(t)
    ensures HasAsItWas(t.queue, t.queue[0]) && t.queue[0].id < |t.past.written|
  {
  }

  /** When the stream goes on with a chunk: it still gives audio, knows its place, and has the chunk due at once. */
  predicate WillGoOnWith(u: State, m: nat, id: nat)
    requires Ready(u)
  {
    Reading(u) && u.map_.anchored && GoesOnWith(ToFill(u, m), id)
  }

  /** The first frame of a block in the timeline of the stream. */
  lemma ReadStartsWith(u: State, m: nat, c: Queued)
    requires Valid(u) && m > 0 && HasAsItWas(u.queue, c)
    ensures WillGoOnWith(u, m, c.id) <==> StartsWith(Read(u, m).past.log, u.index, c.id, c.off)
    ensures WillGoOnWith(u, m, c.id) ==>
              && c.off < |c.pcm|
              && Read(u, m).past.log[u.index].seam.None? && Read(u, m).past.log[u.index].value == c.pcm[c.off]
  {
    ValidIsReady(u);
    assert |u.past.log| == u.index;
    hide Valid, HasAsItWas, GoesOnWith;
    if Reading(u) && u.map_.anchored {
      var f := ToFill(u, m);
      FinishedStaysInBlock(f);
      BlockStartsWith(f, c);
      FinishedOnlyAppends(f);
    }
  }

  /**
   After a block that ends on a ramp, and calls that put nothing out: the next frame
   is the one the ramp leads to, unaltered, if and only if the stream still reads
   and has its mapping, and the chunk of that frame is the first of which anything
   is left and is placed, anew if its place was taken back, with that frame here.
   While nothing was written ahead of it, that is a matter of its place alone.
   */
  lemma WhatARampLeadsTo(s: State, frames: nat, ops: seq<Op>, m: nat)
    requires Valid(s) && Reading(s) && s.map_.anchored && frames > 0 && m > 0
    requires EndsOnARamp(Read(s, frames)) && Ready(Read(s, frames))
    requires Run(Read(s, frames), ops).index == Read(s, frames).index
    ensures Led(Read(s, frames)) && Ready(Run(Read(s, frames), ops))
    ensures var t := Read(s, frames); var u, c := Run(t, ops), t.queue[0]; var log := Read(u, m).past.log;
      && (StartsWith(log, t.index, c.id, c.off) <==> WillGoOnWith(u, m, c.id))
      && (StartsWith(log, t.index, c.id, c.off) ==>
            log[t.index].seam.None? && log[t.index].value == t.past.log[|t.past.log| - 1].to)
      && (Reading(u) && u.map_.anchored && u.queue != [] && u.queue[0].id == c.id ==>
            (WillGoOnWith(u, m, c.id) <==> Decide(ToFill(u, m)).queue[0].place + c.off == t.index))
  {
    hide Valid, Read, HasAsItWas, GoesOnWith, Decide;
    ValidIsReady(s);
    ARampAtTheEndLeads(s, frames);
    var t := Read(s, frames);
    ValidIsReady(t);
    var u, c := Run(t, ops), t.queue[0];
    TheHeadIsItself(t);
    QuietRunsKeepTheRest(t, ops, c);
    ValidIsReady(u);
    ReadStartsWith(u, m, c);
    if Reading(u) && u.map_.anchored && u.queue != [] && u.queue[0].id == c.id {
      HeadGoesOn(u, m, c);
    }
  }

  lemma HeadGoesOn(u: State, m: nat, c: Queued)
    requires Valid(u) && m > 0 && u.queue != [] && u.queue[0].id == c.id && HasAsItWas(u.queue, c) && c.off < |c.pcm|
    ensures GoesOnWith(ToFill(u, m), c.id) <==> Decide(ToFill(u, m)).queue[0].place + c.off == u.index
  {
    var f := ToFill(u, m);
    DecideKeeps(f);
    if IsPast(f) {
      PassingPutsNothingOut(f);
      StepMakesProgress(f);
      PassedOverIsOnTheWay(Step(f));
      var g := PassedOver(f);
      if g.Working() {
        DecideKeeps(g);
        assert g.queue[0] == u.queue[|u.queue| - |g.queue|];
      }
    }
  }

  lemma LedGoesOn(t: State, m: nat)
    requires Valid(t) && EndsOnARamp(t) && Led(t) && m > 0
    ensures GoesOnWith(ToFill(t, m), t.queue[0].id)
  {
    var f := ToFill(t, m);
    assert Decide(f) == f && !IsPast(f);
  }

  lemma ReadKeepsItsMapping(s: State, frames: nat)
    requires Valid(s) && Reading(s)
    ensures Reading(Read(s, frames)) && Read(s, frames).map_ == s.map_
  {
  }

  /** When the next call is a read, that holds: it goes on with the frame the ramp leads to. */
  lemma ARampIsFollowed(s: State, frames: nat, m: nat)
    requires Valid(s) && Reading(s) && s.map_.anchored && frames > 0 && m > 0
    requires EndsOnARamp(Read(s, frames))
    ensures Ready(Read(s, frames))
    ensures var t := Read(s, frames); var log := Read(t, m).past.log;
      && |log| > t.index == |t.past.log| && log[t.index].Played? && log[t.index].seam.None?
      && log[t.index].value == t.past.log[t.index - 1].to
  {
    hide Read, Decide, GoesOnWith, HasAsItWas;
    ValidIsReady(s);
    ARampAtTheEndLeads(s, frames);
    ReadKeepsItsMapping(s, frames);
    var t := Read(s, frames);
    ValidIsReady(t);
    TheHeadIsItself(t);
    LedGoesOn(t, m);
    ReadStartsWith(t, m, t.queue[0]);
  }
}
