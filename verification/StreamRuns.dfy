/**
 What holds of a stream after any sequence of calls: Write, read, Finish, Resume,
 Clear, Close and readings of the player, in any order (internal/audio/stream.go).
 */
module StreamRuns {
  import opened FrameClock
  import opened StreamModel
  import opened StreamState
  import opened StreamFill
  import opened StreamSeams
  import opened StreamJoins
  import opened Wrappers

  function FramesOf(written: seq<Written>): int {
    if written == [] then 0 else FramesOf(written[..|written| - 1]) + |written[|written| - 1].pcm|
  }

  /** Every accepted frame is held, played, late, trimmed or discarded. */
  predicate FramesBalance(s: State) {
    FramesOf(s.past.written) ==
    s.held + s.placed + s.late + s.past.trimmed + s.past.discarded
  }

  /** Every frame of the timeline is audio, silence or a ramp, and none of them is negative. */
  predicate IndexBalances(s: State) {
    && s.index == s.placed + s.silence + s.past.blended
    && s.eased == s.past.blended + s.past.trimmed
    && s.placed >= 0 && s.silence >= 0 && s.past.blended >= 0 && s.past.trimmed >= 0 && s.late >= 0
    && 0 <= s.ended <= s.past.discarded
  }

  predicate WithinLimits(s: State)
    requires s.rate > 0
  {
    && s.held == Unread(s.queue) && s.held <= FrameCount(s.rate, STREAM_HOLD)
    && |s.queue| <= STREAM_CHUNKS
  }

  /**
   Where the head stands between two calls. A part-played head continues at the
   next index, less the frames put out since without a mapping; a decided one
   that has not started is still to come, and is labelled by the mapping in force.
   */
  predicate HeadOnTime(s: State)
    requires s.rate > 0
  {
    && s.past.blind >= 0
    && (s.queue != [] && s.queue[0].eased ==>
          var c := s.queue[0];
          && (c.off > 0 ==> c.place + c.off + s.past.blind == s.index)
          && (c.off == 0 ==>
                && s.map_.anchored && s.past.blind == 0 && c.place >= s.index
                && (c.soft ==> c.place == s.index)
                && c.due == s.map_.originIndex + FrameCount(s.rate, c.at - s.map_.origin)))
  }

  predicate Valid(s: State) {
    && KnownRate(s.rate) && |s.past.log| == s.index
    && Shape(s.queue, s.past.written)
    && Heard(s.past.log, s.queue, s.past.written)
    && FramesBalance(s) && IndexBalances(s) && WithinLimits(s) && HeadOnTime(s)
    && s.lastOut == LastSounded(s.past.log) && Joined(s.past.log, s.past.written)
  }

  lemma ValidIsReady(s: State)
    requires Valid(s)
    ensures Ready(s) && |s.past.log| == s.index
  {
  }

  // ---------- Write ----------

  lemma UnreadOfConcat(a: seq<Queued>, b: seq<Queued>)
    ensures Unread(a + b) == Unread(a) + Unread(b)
  {
    if a == [] {
      assert a + b == b;
    } else {
      assert (a + b)[1..] == a[1..] + b;
      UnreadOfConcat(a[1..], b);
    }
  }

  lemma UnreadIsPositive(queue: seq<Queued>)
    requires OffsetsFit(queue)
    ensures Unread(queue) >= 0
  {
    if queue != [] {
      assert OffsetsFit(queue[1..]);
      UnreadIsPositive(queue[1..]);
    }
  }

  lemma SlotSplitsTheQueue(queue: seq<Queued>, at: int, i: nat)
    requires i <= |queue|
    requires forall k | i <= k < |queue| :: queue[k].at > at && queue[k].off == 0
    ensures var j := Slot(queue, at, i);
      && (forall k | j <= k < |queue| :: queue[k].at > at && queue[k].off == 0)
      && (j > 0 ==> queue[j - 1].at <= at || queue[j - 1].off > 0)
  {
  }

  lemma InsertedIndexes(queue: seq<Queued>, i: nat, c: Queued)
    requires i <= |queue|
    ensures var q := Inserted(queue, i, c);
      && |q| == |queue| + 1 && q[i] == c
      && (forall k | 0 <= k < i :: q[k] == queue[k])
      && (forall k | i < k < |q| :: q[k] == if k == i + 1 then queue[i].(eased := false) else queue[k - 1])
  {
  }

  lemma InsertedKeepsTheHead(queue: seq<Queued>, i: nat, c: Queued)
    requires i <= |queue| && OffsetsFit(queue) && OnlyTheHead(queue) && Untouched(c)
    requires forall k | i <= k < |queue| :: queue[k].off == 0
    ensures OffsetsFit(Inserted(queue, i, c)) && OnlyTheHead(Inserted(queue, i, c))
  {
    InsertedIndexes(queue, i, c);
    var q := Inserted(queue, i, c);
    forall k | 0 <= k < |q| ensures Unfinished(q[k]) && (k > 0 ==> Untouched(q[k])) {
      if k < i {
        assert q[k] == queue[k];
      } else if k > i {
        assert Unfinished(queue[k - 1]);
      }
    }
  }

  lemma InsertedKeepsLabels(queue: seq<Queued>, written: seq<Written>, i: nat, c: Queued)
    requires i <= |queue| && Labelled(queue, written) && c.id == |written|
    ensures Labelled(Inserted(queue, i, c), written + [Written(c.at, c.pcm)])
  {
    InsertedIndexes(queue, i, c);
  }

  /** A new chunk goes in by its due time, never ahead of one already being heard. */
  lemma InsertedKeepsShape(queue: seq<Queued>, written: seq<Written>, at: int, pcm: seq<Frame>)
    requires Shape(queue, written)
    ensures var q := Inserted(queue, Slot(queue, at, |queue|), Fresh(at, pcm, |written|));
      && Shape(q, written + [Written(at, pcm)])
      && Unread(q) == Unread(queue) + |pcm|
      && |q| == |queue| + 1
  {
    hide Labelled, Slot, Unread;
    var i, c := Slot(queue, at, |queue|), Fresh(at, pcm, |written|);
    SlotSplitsTheQueue(queue, at, |queue|);
    var q := Inserted(queue, i, c);
    assert |q| == |queue| + 1;
    hide Inserted;
    InsertedKeepsTheHead(queue, i, c);
    InsertedKeepsLabels(queue, written, i, c);
    UnreadAfterInsert(queue, i, c);
    forall a, b | 0 <= a < b < |q| && (a > 0 || q[0].off == 0) ensures q[a].at <= q[b].at {
      InsertedInOrder(queue, i, c, a, b);
    }
  }

  lemma UnreadAfterInsert(queue: seq<Queued>, i: nat, c: Queued)
    requires i <= |queue|
    ensures Unread(Inserted(queue, i, c)) == Unread(queue) + |c.pcm| - c.off
  {
    var r := if i < |queue| then queue[i := queue[i].(eased := false)] else queue;
    UnreadOfConcat(r[..i] + [c], r[i..]);
    UnreadOfConcat(r[..i], [c]);
    UnreadOfConcat(queue[..i], queue[i..]);
    assert queue == queue[..i] + queue[i..];
    assert r[..i] == queue[..i];
    if i < |queue| {
      assert r[i..][1..] == queue[i..][1..];
    }
  }

  lemma InsertedInOrder(queue: seq<Queued>, i: nat, c: Queued, a: nat, b: nat)
    requires i <= |queue| && OnlyTheHead(queue) && DueOrder(queue) && c.off == 0
    requires forall k | i <= k < |queue| :: queue[k].at > c.at && queue[k].off == 0
    requires i > 0 ==> queue[i - 1].at <= c.at || queue[i - 1].off > 0
    requires a < b < |queue| + 1
    requires var q := Inserted(queue, i, c); a > 0 || q[0].off == 0
    ensures var q := Inserted(queue, i, c); q[a].at <= q[b].at
  {
    var q := Inserted(queue, i, c);
    if b < i {
      assert q[a] == queue[a] && q[b] == queue[b];
    } else if b == i {
      assert q[a] == queue[a] && q[b] == c;
      assert i == 1 || queue[i - 1].off == 0 by {
        if i > 1 { assert Untouched(queue[i - 1]); }
      }
    } else if a > i {
      assert q[a].at == queue[a - 1].at && q[b].at == queue[b - 1].at;
    } else if a == i {
      assert q[b].at == queue[b - 1].at;
    } else {
      assert q[a] == queue[a] && q[b].at == queue[b - 1].at;
      if b - 1 == a {
        assert false;
      }
    }
  }

  lemma HeardAfterWrite(s: State, at: int, pcm: seq<Frame>)
    requires Valid(s)
    ensures var t := Accept(s, at, pcm); Heard(t.past.log, t.queue, t.past.written)
    ensures Joined(s.past.log, s.past.written + [Written(at, pcm)])
  {
    var i := Slot(s.queue, at, |s.queue|);
    SlotSplitsTheQueue(s.queue, at, |s.queue|);
    var t := Accept(s, at, pcm);
    var w := t.past.written;
    InsertedIndexes(s.queue, i, Fresh(at, pcm, |s.past.written|));
    forall k | 0 <= k < |s.past.log|
      ensures FollowsTheRule(s.past.log[k], k, w) && Behind(s.past.log[k], t.queue)
    {
      var cell := s.past.log[k];
      assert FollowsTheRule(cell, k, s.past.written) && Behind(cell, s.queue);
      if cell.Played? {
        forall j | 0 <= j < |t.queue| && t.queue[j].id == cell.id
          ensures j == 0 && cell.off < t.queue[0].off && cell.place == t.queue[0].place
        {
        }
      }
    }
    forall k | 0 <= k < |s.past.log| ensures JoinOk(s.past.log, k, w) {
      assert JoinOk(s.past.log, k, s.past.written);
    }
  }

  lemma FramesOfAppend(written: seq<Written>, w: Written)
    ensures FramesOf(written + [w]) == FramesOf(written) + |w.pcm|
  {
    assert (written + [w])[..|written|] == written;
  }

  lemma AcceptKeepsValid(s: State, at: int, pcm: seq<Frame>)
    requires Valid(s) && s.held + |pcm| <= FrameCount(s.rate, STREAM_HOLD)
    requires |s.queue| < STREAM_CHUNKS
    ensures Valid(Accept(s, at, pcm))
  {
    InsertedKeepsShape(s.queue, s.past.written, at, pcm);
    HeardAfterWrite(s, at, pcm);
    FramesOfAppend(s.past.written, Written(at, pcm));
    var i := Slot(s.queue, at, |s.queue|);
    var t := Accept(s, at, pcm);
    assert i > 0 ==> t.queue[0] == s.queue[0];
    assert i == 0 ==> !t.queue[0].eased;
  }

  // ---------- read ----------

  lemma EntryIsOk(s: State, frames: nat)
    requires Valid(s) && s.map_.anchored
    ensures var f := ToFill(s, frames);
      && FillOk(f, s.past.written) && JoinsOk(f, s.past.written)
      && (InStep(f) || Lag(f) > 0) && Lag(f) <= s.past.blind
      && (s.past.blind == 0 ==> InStep(f) && Lag(f) == 0)
  {
  }

  /** The stream after a block, seen from where the filling of it ended. */
  lemma ExitKeepsValid(s: State, f: Fill)
    requires Valid(s) && s.map_.anchored
    requires FillOk(f, s.past.written) && SameAccounts(ToFill(s, f.frames), f)
    requires JoinsOk(f, s.past.written) && InStep(f)
    requires f.pos == f.frames || f.queue == []
    requires |f.queue| <= |s.queue| && f.frames > 0
    ensures Valid(FromFill(s, RunDry(f)))
  {
    hide FrameCount, OffsetsFit, OnlyTheHead, DueOrder, Labelled, LastSounded, Joined;
    var g, t := RunDry(f), FromFill(s, RunDry(f));
    RunDryKeepsJoins(f, s.past.written);
    if f.pos < f.frames {
      SilentCellsKeep(f.log, seq(f.frames - f.pos, _ => Dry), f.queue, s.past.written);
    }
    assert g == f.(lastOut := g.lastOut, log := g.log);
    UnreadIsPositive(t.queue);
    assert t.queue != [] && t.queue[0].eased ==> f.pos == f.frames;
  }

  /** Filling a block gives away no frame it did not have. */
  lemma FinishedShrinksTheQueue(f: Fill, written: seq<Written>)
    requires FillOk(f, written)
    ensures |Finished(f).queue| <= |f.queue|
    ensures Finished(f).trimmed >= f.trimmed && Finished(f).filled >= f.filled
    decreases |f.queue|, f.frames - f.pos, HeadLeft(f)
  {
    if f.pos < f.frames && f.queue != [] {
      StepMakesProgress(f);
      StepKeeps(f, written);
      FinishedShrinksTheQueue(Step(f), written);
      StepOnlyAdds(f);
    }
  }

  lemma StepOnlyAdds(f: Fill)
    requires f.Working() && OffsetsFit(f.queue)
    ensures Step(f).trimmed >= f.trimmed && Step(f).filled >= f.filled
  {
    if |f.queue[0].pcm| != 0 {
      DecideKeeps(f);
    }
  }

  lemma ReadBlockKeepsValid(s: State, frames: nat)
    requires Valid(s) && s.map_.anchored
    ensures Valid(FromFill(s, RunDry(FinishedInBlock(ToFill(s, frames)))))
  {
    hide Heard, Joined, LastSounded, FramesOf, DueOrder, Labelled;
    var f := ToFill(s, frames);
    EntryIsOk(s, frames);
    if frames == 0 {
      assert FromFill(s, RunDry(FinishedInBlock(f))) == s;
      return;
    }
    FinishedStaysInBlock(f);
    FinishedKeeps(f, s.past.written);
    FinishedCorrectsOnce(f, s.past.written);
    FinishedKeepsJoins(f, s.past.written);
    FinishedShrinksTheQueue(f, s.past.written);
    ExitKeepsValid(s, Finished(f));
  }

  lemma ReadBlindKeepsValid(s: State, frames: nat)
    requires Valid(s) && !s.map_.anchored
    ensures Valid(ReadBlind(s, frames))
  {
    var cells := seq(frames, _ => Blind);
    var t := ReadBlind(s, frames);
    SilentCellsKeep(s.past.log, cells, s.queue, s.past.written);
    LastSoundedOfRest(s.past.log, cells);
    assert forall i | |s.past.log| <= i < |t.past.log| :: t.past.log[i] == Blind;
    JoinedAppend(s.past.log, cells, s.past.written);
  }

  // ---------- the rest of the calls ----------

  lemma DiscardKeepsValid(s: State)
    requires Valid(s)
    ensures Valid(Discard(s))
  {
    hide LastSounded, JoinOk, FollowsTheRule, FramesOf;
    UnreadIsPositive(s.queue);
    var t := Discard(s);
    assert AllBehind(t.past.log, t.queue);
  }

  lemma FinishKeepsValid(s: State)
    requires Valid(s)
    ensures Valid(Finish(s))
  {
    if !s.closed && !s.spent && !s.done {
      DiscardKeepsValid(s);
      UnreadIsPositive(s.queue);
      OnlyLifeChanged(Discard(s), Finish(s), s.held);
    }
  }

  lemma OnlyLifeChanged(s: State, t: State, more: int)
    requires Valid(s) && 0 <= more && s.ended + more <= s.past.discarded
    requires t == s.(done := t.done, ended := s.ended + more, closed := t.closed, spent := t.spent)
    ensures Valid(t)
  {
    hide Heard, Joined, Shape, LastSounded, FramesOf, Unread;
  }

  /** Taking the decision back from every chunk not yet started. */
  lemma UneaseKeeps(queue: seq<Queued>, log: seq<Cell>, written: seq<Written>)
    requires Shape(queue, written) && Heard(log, queue, written)
    ensures Shape(Unease(queue), written) && Heard(log, Unease(queue), written)
    ensures Unread(Unease(queue)) == Unread(queue)
  {
    var q := Unease(queue);
    forall k | 0 <= k < |q|
      ensures q[k] == queue[k].(eased := q[k].eased) && (queue[k].off > 0 ==> q[k] == queue[k])
    {
    }
    assert forall k | 0 <= k < |q| :: Unfinished(queue[k]) && Unfinished(q[k]);
    assert forall k | 0 < k < |q| :: Untouched(queue[k]) && Untouched(q[k]);
    forall i | 0 <= i < |log| ensures Behind(log[i], q) {
      assert Behind(log[i], queue);
    }
    UnreadOfUnease(queue);
  }

  lemma UnreadOfUnease(queue: seq<Queued>)
    ensures Unread(Unease(queue)) == Unread(queue)
  {
    if queue != [] {
      assert Unease(queue)[1..] == Unease(queue[1..]);
      UnreadOfUnease(queue[1..]);
    }
  }

  /** Either every unstarted decision is taken back or the mapping stays as it was. */
  predicate Undecided(s: State, t: State) {
    || t.queue == Unease(s.queue)
    || !s.map_.anchored
    || (t.queue == s.queue && t.map_.anchored
        && t.map_.origin == s.map_.origin && t.map_.originIndex == s.map_.originIndex)
  }

  lemma FollowUneases(s: State, slip: int)
    requires s.map_.anchored
    ensures Undecided(s, Follow(s, slip).0)
  {
    FollowFarUneases(s, slip);
    FollowNearUneases(s, slip);
    hide FollowFar, FollowFirst, FollowMean, Undecided;
  }

  lemma FollowFarUneases(s: State, slip: int)
    requires s.map_.anchored
    ensures Undecided(s, FollowFar(s, slip).0)
  {
    hide Unease;
  }

  lemma FollowNearUneases(s: State, slip: int)
    requires s.map_.anchored
    ensures Undecided(s, FollowFirst(s, slip)) && Undecided(s, FollowMean(s, slip))
  {
    hide Unease;
  }

  /** The mapping is never moved without taking every unstarted decision back. */
  lemma AMovedMappingUneases(s: State, p: Point)
    requires s.rate > 0
    ensures Undecided(s, Place(s, p).0)
  {
    hide Learn, Follow, Watch, Unease;
    var t := SwitchOutput(s, p.bursty);
    if p.bursty != s.map_.bursty {
      LearnTouchesOnlyTheMapping(t, p);
    } else if s.map_.anchored {
      if p.bursty { FollowUneases(s, Slip(s, p)); } else { WatchUneases(s, p); }
    }
  }

  lemma WatchUneases(s: State, p: Point)
    requires s.rate > 0 && s.map_.anchored
    ensures Undecided(s, Watch(s, p).0)
  {
    hide Unease, Slip, Due;
  }

  lemma PlaceKeepsValid(s: State, p: Point)
    requires Valid(s)
    ensures Valid(Place(s, p).0)
  {
    hide Place, Heard, Joined, LastSounded, FramesOf, Labelled, DueOrder;
    PlaceTouchesOnlyTheMapping(s, p);
    AMovedMappingUneases(s, p);
    UneaseKeeps(s.queue, s.past.log, s.past.written);
  }

  lemma ReadKeepsValid(s: State, frames: nat)
    requires Valid(s)
    ensures Valid(Read(s, frames))
  {
    hide Heard, Joined, LastSounded, HeadOnTime, FramesOf, OnlyTheHead, DueOrder, Labelled;
    if Reading(s) {
      if s.map_.anchored { ReadBlockKeepsValid(s, frames); } else { ReadBlindKeepsValid(s, frames); }
    } else {
      OnlyLifeChanged(s, Read(s, frames), 0);
    }
  }

  lemma JustLifeChanged(s: State, op: Op)
    requires Valid(s) && (op.OpResume? || op.OpClose?)
    ensures Valid(Apply(s, op))
  {
    OnlyLifeChanged(s, Apply(s, op), 0);
  }

  lemma ApplyKeepsValid(s: State, op: Op)
    requires Valid(s)
    ensures Valid(Apply(s, op))
  {
    hide Read, Accept, Place, Finish, Discard;
    hide Heard, Joined, Shape, LastSounded, HeadOnTime, FramesOf;
    match op
    case OpWrite(now, at, pcm) =>
      if Refused(s, now, at, pcm) == None {
        AcceptKeepsValid(s, at, Decode(pcm));
      }
    case OpRead(frames) => ReadKeepsValid(s, frames);
    case OpPlace(p) => PlaceKeepsValid(s, p);
    case OpFinish => FinishKeepsValid(s);
    case OpClear => DiscardKeepsValid(s);
    case _ => JustLifeChanged(s, op);
  }

  lemma NewStateIsValid(rate: int)
    requires KnownRate(rate)
    ensures Valid(NewState(rate))
  {
    hide FrameCount;
    FrameCountOfSeconds(rate, 30);
    var s := NewState(rate);
    assert Heard(s.past.log, s.queue, s.past.written) && Joined(s.past.log, s.past.written);
    assert Shape(s.queue, s.past.written) && HeadOnTime(s) && WithinLimits(s);
  }

  /** Every state a stream can reach, by any calls in any order, is valid. */
  lemma {:induction false} RunKeepsValid(s: State, ops: seq<Op>)
    requires Valid(s)
    ensures Valid(Run(s, ops))
    decreases |ops|
  {
    if ops != [] {
      ApplyKeepsValid(s, ops[0]);
      RunKeepsValid(Apply(s, ops[0]), ops[1..]);
    }
  }

  // ---------- what that means ----------

  /** One state follows on the one before it by a call. */
  predicate Follows(states: seq<State>, ops: seq<Op>, i: nat)
    requires i < |ops| < |states|
  {
    Ready(states[i]) && states[i + 1] == Apply(states[i], ops[i])
  }

  ghost predicate Leads(states: seq<State>, ops: seq<Op>, s: State) {
    && |states| == |ops| + 1 && KnownRate(states[0].rate) && states[0] == NewState(states[0].rate)
    && states[|ops|] == s && forall i | 0 <= i < |ops| :: Follows(states, ops, i)
  }

  /** A state some sequence of calls brings a new stream to. */
  ghost predicate Reachable(s: State) {
    exists states, ops :: Leads(states, ops, s)
  }

  /** In other words, it is where some run of a new stream ends. */
  lemma ReachableByARun(s: State) returns (rate: int, ops: seq<Op>)
    requires Reachable(s)
    ensures KnownRate(rate) && s == Run(NewState(rate), ops)
  {
    hide Apply;
    var states: seq<State>, calls: seq<Op> :| Leads(states, calls, s);
    rate, ops := states[0].rate, calls;
    RunsAlong(states, ops);
  }

  lemma {:induction false} RunsAlong(states: seq<State>, ops: seq<Op>)
    requires |states| == |ops| + 1 && Ready(states[0]) && forall i | 0 <= i < |ops| :: Follows(states, ops, i)
    ensures Run(states[0], ops) == states[|ops|]
    decreases |ops|
  {
    hide Apply;
    if ops != [] {
      assert Follows(states, ops, 0);
      ApplyStaysReady(states[0], ops[0]);
      forall i | 0 <= i < |ops| - 1 ensures Follows(states[1..], ops[1..], i) {
        assert Follows(states, ops, i + 1);
      }
      RunsAlong(states[1..], ops[1..]);
    }
  }

  lemma NewIsReachable(rate: int)
    requires KnownRate(rate)
    ensures Reachable(NewState(rate))
  {
    assert Leads([NewState(rate)], [], NewState(rate));
  }

  lemma CallsStayReachable(s: State, op: Op)
    requires Reachable(s) && Ready(s)
    ensures Reachable(Apply(s, op))
  {
    hide Apply;
    var states: seq<State>, ops: seq<Op> :| Leads(states, ops, s);
    var more, calls := states + [Apply(s, op)], ops + [op];
    forall i | 0 <= i < |calls| ensures Follows(more, calls, i) {
      assert i < |ops| ==> Follows(states, ops, i);
    }
    assert Leads(more, calls, Apply(s, op));
  }

  lemma ReachableIsValid(s: State)
    requires Reachable(s)
    ensures Valid(s)
  {
    hide Valid, Run;
    var rate, ops := ReachableByARun(s);
    NewStateIsValid(rate);
    RunKeepsValid(NewState(rate), ops);
  }

  /**
   Over every run: no frame is lost or counted twice, silence and every other
   account stays at or above zero, and the stream stays inside its two ceilings.
   */
  lemma EveryRunBalances(s: State)
    requires Reachable(s)
    ensures FramesOf(s.past.written) == s.held + s.placed + s.late + s.past.trimmed + s.past.discarded
    ensures s.index == s.placed + s.silence + s.past.blended
    ensures s.eased == s.past.blended + s.past.trimmed
    ensures s.held == Unread(s.queue) && |s.queue| <= STREAM_CHUNKS
    ensures s.rate > 0 && 0 <= s.held <= 30 * s.rate
    ensures s.placed >= 0 && s.silence >= 0 && s.late >= 0 && 0 <= s.ended <= s.past.discarded
  {
    ReachableIsValid(s);
    UnreadIsPositive(s.queue);
    FrameCountOfSeconds(s.rate, 30);
  }

  /**
   Over every run: what goes out is what was written, where its place says, and
   what was made up or smoothed lies half way between two frames.
   */
  lemma EveryFrameFollowsTheRule(s: State, i: nat)
    requires Reachable(s) && i < |s.past.log|
    ensures FollowsTheRule(s.past.log[i], i, s.past.written)
    ensures JoinOk(s.past.log, i, s.past.written)
  {
    ReachableIsValid(s);
  }

  /**
   Over every run: a frame of a chunk goes out at the place of the chunk plus its
   offset, so within a chunk frames go out in order, side by side in time as they
   were written, and no frame goes out twice.
   */
  lemma EveryFramePlaysOnce(s: State, i: nat, j: nat)
    requires Reachable(s) && i < j < |s.past.log|
    requires s.past.log[i].Played? && s.past.log[j].Played? && s.past.log[i].id == s.past.log[j].id
    ensures s.past.log[j].off - s.past.log[i].off == j - i
  {
    ReachableIsValid(s);
    assert FollowsTheRule(s.past.log[i], i, s.past.written);
    assert FollowsTheRule(s.past.log[j], j, s.past.written);
  }

  /**
   Over every run: only the head is part-played or decided, the rest is in order
   of due time, and a part-played head continues at the next index, less the
   frames put out without a mapping since the last block that had one.
   */
  lemma EveryQueueIsInShape(s: State)
    requires Reachable(s)
    ensures OnlyTheHead(s.queue) && DueOrder(s.queue) && OffsetsFit(s.queue)
    ensures s.queue != [] && s.queue[0].off > 0 ==>
              s.queue[0].place + s.queue[0].off == s.index - s.past.blind
  {
    ReachableIsValid(s);
  }

  /** One block makes one soft correction of one frame at most, plus any lag it catches up. */
  lemma OneSoftCorrectionPerBlock(s: State, frames: nat)
    requires Valid(s)
    ensures Read(s, frames).eased - s.eased <= 1 + s.past.blind
    ensures s.past.blind == 0 && s.index - s.easedAt < EASE_APART ==> Read(s, frames).eased == s.eased
  {
    hide Heard, Joined, LastSounded, FramesOf, Unread, JoinsOk, DueOrder, Labelled;
    if Reading(s) && s.map_.anchored && frames > 0 {
      var f := ToFill(s, frames);
      EntryIsOk(s, frames);
      FinishedCorrectsOnce(f, s.past.written);
      FinishedKeeps(f, s.past.written);
      FinishedShrinksTheQueue(f, s.past.written);
      FinishedBlendsForward(f, s.past.written);
    }
  }

  lemma FinishedBlendsForward(f: Fill, written: seq<Written>)
    requires FillOk(f, written)
    ensures Finished(f).blended >= f.blended
    decreases |f.queue|, f.frames - f.pos, HeadLeft(f)
  {
    if f.pos < f.frames && f.queue != [] {
      StepMakesProgress(f);
      StepKeeps(f, written);
      FinishedBlendsForward(Step(f), written);
      if |f.queue[0].pcm| != 0 {
        DecideKeeps(f);
      }
    }
  }

  /** A block put out by a valid stream leaves the joins of the timeline in order. */
  lemma BlockJoins(s: State, frames: nat)
    requires Valid(s) && Reading(s) && s.map_.anchored
    ensures var log := Read(s, frames).past.log;
      s.index >= 0 && LedTo(log, s.index) && Joined(log, s.past.written)
  {
    var f := ToFill(s, frames);
    EntryIsOk(s, frames);
    FinishedStaysInBlock(f);
    FinishedKeepsJoins(f, s.past.written);
    FinishedKeeps(f, s.past.written);
    RunDryKeepsJoins(Finished(f), s.past.written);
  }
}
