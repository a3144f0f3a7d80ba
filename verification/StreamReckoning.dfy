/**
 Where an output has got to, reckoned from what was read of it
 (internal/audio/stream.go:461-534): a list of readings in place of the counters, sums
 and means the program keeps.
 */
module StreamReckoning {
  import opened GoInt
  import opened FrameClock
  import opened StreamModel
  import opened StreamState
  import opened StreamFollow
  import opened StreamPlacement

  /** A reading: the frame with this index will be heard then. */
  datatype Heard = Heard(due: int, index: int)

  /** The output plays frame `index` at `origin`, and the others in step with it. */
  datatype Line = Line(origin: int, index: int)

  /**
   What is known of an output: its readings, as long as there are fewer than five; then
   a line, how many readings in a row were far from it, and for Bluetooth by how much
   the first ones missed it and by how much the later ones do on average.
   */
  datatype Reckoning =
    | Unsure(bursty: bool, heard: seq<Heard>)
    | Sure(bursty: bool, line: Line, strays: nat, firsts: seq<int>, mean: int)

  const UNHEARD := Unsure(false, [])

  datatype Effect = Stays | Settles | Averages | Drifts | Resets

  /** When each reading says that the first one's frame is heard. */
  function Moments(rate: int, heard: seq<Heard>): seq<int>
    requires rate > 0
  {
    seq(|heard|, i requires 0 <= i < |heard| => heard[i].due - FrameTime(rate, heard[i].index - heard[0].index))
  }

  function Missed(rate: int, line: Line, h: Heard): int
    requires rate > 0
  {
    h.due - line.origin - FrameTime(rate, h.index - line.index)
  }

  function Moved(line: Line, miss: int): Line {
    line.(origin := line.origin + miss)
  }

  /** Five readings settle it: the one in the middle. */
  function Settled(rate: int, r: Reckoning, h: Heard): (Reckoning, Effect)
    requires rate > 0 && r.Unsure?
  {
    var heard := r.heard + [h];
    if |heard| < 5 then (Unsure(r.bursty, heard), Stays)
    else (Sure(r.bursty, Line(Sorted(Moments(rate, heard))[2], heard[0].index), 0, [], 0), Settles)
  }

  /** The speaker is where it was found, or is found anew by the third reading in a row more than 50 ms off. */
  function Watched(r: Reckoning, h: Heard, miss: int): (Reckoning, Effect)
    requires r.Sure?
  {
    if Abs(miss) <= 50_000_000 then (r.(strays := 0), Stays)
    else if r.strays < 2 then (r.(strays := r.strays + 1), Stays)
    else (r.(strays := 0, line := Line(h.due, h.index)), Resets)
  }

  /**
   Bluetooth is off by the average of the first twenty readings, and of the later ones
   by their running mean, once that is over 4 ms; and the third reading in a row more
   than 150 ms off begins all that again from itself.
   */
  function Followed(r: Reckoning, miss: int): (Reckoning, Effect)
    requires r.Sure?
  {
    if Abs(miss) > 150_000_000 then
      if r.strays < 2 then (r.(strays := r.strays + 1), Stays)
      else (Sure(r.bursty, Moved(r.line, miss), 0, [], 0), Resets)
    else if |r.firsts| < 20 then
      var firsts := r.firsts + [miss];
      if |firsts| < 20 then (r.(strays := 0, firsts := firsts), Stays)
      else (r.(strays := 0, firsts := firsts, line := Moved(r.line, Quo(Sum(firsts), 20))), Averages)
    else
      var mean := r.mean + Quo(miss - r.mean, 128);
      if Abs(mean) <= 4_000_000 then (r.(strays := 0, mean := mean), Stays)
      else (r.(strays := 0, mean := 0, line := Moved(r.line, mean)), Drifts)
  }

  /** A reading of another output forgets all of this. */
  function Reckon(rate: int, r: Reckoning, h: Heard, bursty: bool): (Reckoning, Effect)
    requires rate > 0
  {
    if bursty != r.bursty then Settled(rate, Unsure(bursty, []), h)
    else if r.Unsure? then Settled(rate, r, h)
    else if bursty then Followed(r, Missed(rate, r.line, h))
    else Watched(r, h, Missed(rate, r.line, h))
  }

  // ---------- the program's reckoning ----------

  predicate IsReckoned(m: Mapping, rate: int, r: Reckoning)
    requires rate > 0
  {
    && m.bursty == r.bursty
    && match r
       case Unsure(_, heard) =>
         && !m.anchored && |heard| < 5 && m.candidates == Moments(rate, heard) && m.outside == 0
         && (heard != [] ==> m.ref == heard[0].index)
       case Sure(_, line, strays, firsts, mean) =>
         && m.anchored && m.candidates == [] && Line(m.origin, m.originIndex) == line && m.outside == strays
         && m.firstTaken == |firsts| && m.firstSum == Sum(firsts) && m.slipMean == mean
  }

  function HeardAt(s: State, p: Point): Heard
    requires s.rate > 0
  {
    Heard(p.at + FrameTime(s.rate, p.ahead), s.index)
  }

  lemma OneMoreMoment(rate: int, heard: seq<Heard>, h: Heard)
    requires rate > 0
    ensures var first := if heard == [] then h else heard[0];
      Moments(rate, heard + [h]) == Moments(rate, heard) + [h.due - FrameTime(rate, h.index - first.index)]
  {
    assert heard == [] ==> heard + [h] == [h];
  }

  lemma NothingAddsToNothing()
    ensures Sum([]) == 0
  {
  }

  lemma LearningIsSettled(s: State, p: Point, r: Reckoning)
    requires s.rate > 0 && r.Unsure? && IsReckoned(s.map_, s.rate, r)
    ensures var (t, says), (q, effect) := Learn(s, p), Settled(s.rate, r, HeardAt(s, p));
      && IsReckoned(t.map_, s.rate, q) && t == s.(map_ := t.map_) && t.map_.slips == s.map_.slips
      && says == Verdict(if effect == Settles then FrameTime(s.rate, p.ahead) else 0, 0, false)
      && effect in {Stays, Settles}
  {
    OneMoreMoment(s.rate, r.heard, HeardAt(s, p));
    NothingAddsToNothing();
    hide FrameTime, Sorted, Moments, Sum;
    var moments := Moments(s.rate, r.heard + [HeardAt(s, p)]);
    assert Learn(s, p).0.map_.candidates == if |r.heard| < 4 then moments else [];
  }

  lemma MissedIsSlip(s: State, p: Point, r: Reckoning)
    requires s.rate > 0 && r.Sure? && IsReckoned(s.map_, s.rate, r)
    ensures Missed(s.rate, r.line, HeardAt(s, p)) == Slip(s, p)
  {
    hide FrameTime;
  }

  lemma WatchingIsWatched(s: State, p: Point, r: Reckoning)
    requires s.rate > 0 && r.Sure? && IsReckoned(s.map_, s.rate, r)
    ensures var miss := Missed(s.rate, r.line, HeardAt(s, p));
      var (t, says), (q, effect) := Watch(s, p), Watched(r, HeardAt(s, p), miss);
      && IsReckoned(t.map_, s.rate, q) && t.jump == s.jump
      && t.queue == (if effect == Resets then Unease(s.queue) else s.queue)
      && t.map_.slips == s.map_.slips + (if effect == Resets then 1 else 0)
      && says == Verdict(0, if effect == Resets then miss else 0, effect == Resets) && effect in {Stays, Resets}
  {
    MissedIsSlip(s, p, r);
    hide FrameTime, Unease, Sum, Moments, Missed, Slip, Due;
    var miss := Slip(s, p);
    assert Abs(miss) <= 50_000_000 <==> -ANCHOR_SLIP <= miss <= ANCHOR_SLIP;
    hide Abs;
  }

  /** What following a reading of Bluetooth comes to. */
  predicate IsFollowed(s: State, miss: int, r: Reckoning, t: State, says: Verdict)
    requires s.rate > 0 && r.Sure?
  {
    var (q, effect) := Followed(r, miss);
    && IsReckoned(t.map_, s.rate, q) && t.jump == (s.jump || effect in {Averages, Resets})
    && t.queue == (if effect in {Averages, Drifts, Resets} then Unease(s.queue) else s.queue)
    && t.map_.slips == s.map_.slips + (if effect == Resets then 1 else 0)
    && says == Verdict(0, if effect == Resets then miss else 0, effect == Resets) && effect != Settles
  }

  lemma FarIsFollowed(s: State, miss: int, r: Reckoning)
    requires s.rate > 0 && r.Sure? && IsReckoned(s.map_, s.rate, r) && Abs(miss) > 150_000_000
    ensures IsFollowed(s, miss, r, FollowFar(s, miss).0, FollowFar(s, miss).1)
  {
    NothingAddsToNothing();
    hide Unease, Moments, Quo, Sum;
  }

  lemma FirstIsFollowed(s: State, miss: int, r: Reckoning)
    requires s.rate > 0 && r.Sure? && IsReckoned(s.map_, s.rate, r)
    requires Abs(miss) <= 150_000_000 && |r.firsts| < 20
    ensures IsFollowed(s, miss, r, FollowFirst(s, miss), NOTHING)
  {
    SumMore(r.firsts, miss);
    hide Unease, Sum, Moments, Quo;
  }

  lemma MeanIsFollowed(s: State, miss: int, r: Reckoning)
    requires s.rate > 0 && r.Sure? && IsReckoned(s.map_, s.rate, r)
    requires Abs(miss) <= 150_000_000 && |r.firsts| >= 20
    ensures IsFollowed(s, miss, r, FollowMean(s, miss), NOTHING)
  {
    hide Unease, Sum, Moments, Quo;
  }

  lemma FollowingIsFollowed(s: State, miss: int, r: Reckoning)
    requires s.rate > 0 && r.Sure? && IsReckoned(s.map_, s.rate, r)
    ensures IsFollowed(s, miss, r, Follow(s, miss).0, Follow(s, miss).1)
  {
    hide IsFollowed, FollowFar, FollowFirst, FollowMean, Moments, Sum;
    if Abs(miss) > 150_000_000 {
      FarIsFollowed(s, miss, r);
    } else if |r.firsts| < 20 {
      FirstIsFollowed(s, miss, r);
    } else {
      MeanIsFollowed(s, miss, r);
    }
  }

  /** One reading, whatever it is and whatever was read before. */
  lemma WhatAReadingDoes(s: State, p: Point, r: Reckoning)
    requires s.rate > 0 && IsReckoned(s.map_, s.rate, r)
    ensures var (t, says), (q, effect) := Place(s, p), Reckon(s.rate, r, HeardAt(s, p), p.bursty);
      && IsReckoned(t.map_, s.rate, q)
      && t.queue == (if p.bursty != r.bursty || effect in {Averages, Drifts, Resets} then Unease(s.queue) else s.queue)
      && t.jump == (s.jump || (p.bursty && effect in {Averages, Resets}))
      && t.map_.slips == s.map_.slips + (if effect == Resets then 1 else 0)
      && (says.again <==> effect == Resets) && (says.depth != 0 ==> effect == Settles)
      && (effect == Settles ==> says.depth == FrameTime(s.rate, p.ahead))
      && says.slip == if effect == Resets then Missed(s.rate, r.line, HeardAt(s, p)) else 0
  {
    hide Learn, Watch, Follow, Settled, Watched, Followed, Unease, FrameTime;
    var t := SwitchOutput(s, p.bursty);
    if p.bursty != r.bursty {
      assert Moments(s.rate, []) == [];
      LearningIsSettled(t, p, Unsure(p.bursty, []));
    } else if r.Unsure? {
      LearningIsSettled(s, p, r);
    } else if p.bursty {
      FollowingIsFollowed(s, Slip(s, p), r);
    } else {
      WatchingIsWatched(s, p, r);
    }
  }

  /** What the readings among some calls come to; `s` is the stream they are made on. */
  function Reckoned(s: State, ops: seq<Op>, r: Reckoning): Reckoning
    requires Ready(s)
    decreases |ops|
  {
    if ops == [] then r
    else
      ApplyStaysReady(s, ops[0]);
      var q := if ops[0].OpPlace? then Reckon(s.rate, r, HeardAt(s, ops[0].p), ops[0].p.bursty).0 else r;
      Reckoned(Apply(s, ops[0]), ops[1..], q)
  }

  lemma OtherCallsReckonNothing(s: State, op: Op)
    requires Ready(s) && !op.OpPlace?
    ensures Apply(s, op).map_ == s.map_
  {
    OtherCallsLeaveTheMapping(s, s, op);
  }

  lemma {:induction false} RunReckons(s: State, ops: seq<Op>, r: Reckoning)
    requires Ready(s) && IsReckoned(s.map_, s.rate, r)
    ensures Run(s, ops).rate == s.rate && IsReckoned(Run(s, ops).map_, s.rate, Reckoned(s, ops, r))
    decreases |ops|
  {
    hide Apply, Reckon, IsReckoned;
    if ops != [] {
      ApplyStaysReady(s, ops[0]);
      if ops[0].OpPlace? {
        WhatAReadingDoes(s, ops[0].p, r);
        APlaceIsApplied(s, ops[0].p);
        RunReckons(Apply(s, ops[0]), ops[1..], Reckon(s.rate, r, HeardAt(s, ops[0].p), ops[0].p.bursty).0);
      } else {
        OtherCallsReckonNothing(s, ops[0]);
        RunReckons(Apply(s, ops[0]), ops[1..], r);
      }
    }
  }

  lemma APlaceIsApplied(s: State, p: Point)
    requires Ready(s)
    ensures Apply(s, OpPlace(p)) == Place(s, p).0
  {
    hide Place;
  }

  /**
   In every run the stream's mapping is the line its readings come to, whatever else was
   called between them, and there is none as long as they come to none.
   */
  lemma EveryMappingIsReckoned(rate: int, ops: seq<Op>)
    requires rate > 0
    ensures Ready(NewState(rate))
    ensures var m, r := Run(NewState(rate), ops).map_, Reckoned(NewState(rate), ops, UNHEARD);
      && (m.anchored <==> r.Sure?) && m.bursty == r.bursty
      && (r.Sure? ==> Line(m.origin, m.originIndex) == r.line)
  {
    hide Run, Reckoned;
    assert Moments(rate, []) == [];
    RunReckons(NewState(rate), ops, UNHEARD);
  }
}
