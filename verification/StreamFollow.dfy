/**
 How the mapping follows an output that reports in bursts
 (internal/audio/stream.go:504-534): what moves it, by how much, and what never does.
 */
module StreamFollow {
  import opened GoInt
  import opened FrameClock
  import opened StreamModel
  import opened StreamState

  /** Readings one after another, as how far each found the stream out of step. */
  function FollowAll(s: State, slips: seq<int>): State
    decreases |slips|
  {
    if slips == [] then s else FollowAll(Follow(s, slips[0]).0, slips[1..])
  }

  function Sum(xs: seq<int>): int {
    if xs == [] then 0 else xs[0] + Sum(xs[1..])
  }

  predicate AllWithin(xs: seq<int>, bound: int) {
    forall i | 0 <= i < |xs| :: -bound <= xs[i] <= bound
  }

  lemma {:induction false} SumWithin(xs: seq<int>, bound: int)
    requires AllWithin(xs, bound)
    ensures -bound * |xs| <= Sum(xs) <= bound * |xs|
  {
    if xs != [] {
      SumWithin(xs[1..], bound);
      Successor(bound, |xs| - 1);
      Successor(-bound, |xs| - 1);
    }
  }

  // ---------- the first readings ----------

  lemma {:induction false} FirstReadingsAddUp(s: State, slips: seq<int>)
    requires AllWithin(slips, BURSTY_SLIP) && s.map_.firstTaken + |slips| < BURSTY_FIRST
    ensures var t := FollowAll(s, slips);
      t == s.(map_ := s.map_.(outside := t.map_.outside, firstSum := s.map_.firstSum + Sum(slips),
                              firstTaken := s.map_.firstTaken + |slips|))
    decreases |slips|
  {
    hide Unease;
    if slips != [] {
      FirstReadingsAddUp(Follow(s, slips[0]).0, slips[1..]);
    }
  }

  lemma {:induction false} FollowAllMore(s: State, slips: seq<int>, slip: int)
    ensures FollowAll(s, slips + [slip]) == Follow(FollowAll(s, slips), slip).0
    decreases |slips|
  {
    hide Follow;
    if slips == [] {
      assert slips + [slip] == [slip] && [slip][1..] == [];
      assert FollowAll(Follow(s, slip).0, []) == Follow(s, slip).0;
    } else {
      assert (slips + [slip])[1..] == slips[1..] + [slip];
      FollowAllMore(Follow(s, slips[0]).0, slips[1..], slip);
    }
  }

  lemma {:induction false} SumMore(xs: seq<int>, x: int)
    ensures Sum(xs + [x]) == Sum(xs) + x
  {
    if xs == [] {
      assert xs + [x] == [x] && [x][1..] == [];
    } else {
      assert (xs + [x])[1..] == xs[1..] + [x];
      SumMore(xs[1..], x);
    }
  }

  /**
   The first twenty readings leave the mapping where it was until the last of them,
   which moves it by their average; so by no more than the farthest of them.
   */
  lemma TwentyReadingsMoveByTheirAverage(s: State, slips: seq<int>, bound: int)
    requires s.map_.firstTaken == 0 && s.map_.firstSum == 0
    requires |slips| == 20 && AllWithin(slips, bound) && bound <= 150_000_000
    ensures var t, moved := FollowAll(s, slips), Quo(Sum(slips), 20);
      && FollowAll(s, slips[..19]).map_.origin == s.map_.origin
      && t.map_.origin == s.map_.origin + moved && -bound <= moved <= bound
      && t.map_.originIndex == s.map_.originIndex && t.map_.firstTaken == 20
      && t.jump && t.queue == Unease(s.queue)
  {
    hide Unease;
    var last := BURSTY_FIRST - 1;
    assert slips == slips[..last] + [slips[last]];
    FirstReadingsAddUp(s, slips[..last]);
    FollowAllMore(s, slips[..last], slips[last]);
    SumMore(slips[..last], slips[last]);
    SumWithin(slips, bound);
    QuoBounds(Sum(slips), BURSTY_FIRST);
  }

  // ---------- the running mean ----------

  /** The mean moves toward a reading and never past it. */
  lemma MeanStaysBetween(mean: int, slip: int)
    ensures Min(mean, slip) <= mean + Quo(slip - mean, 128) <= Max(mean, slip)
  {
    QuoBounds(slip - mean, BURSTY_OVER);
  }

  /** Readings inside the band never move the mapping, however many and however they lean. */
  lemma {:induction false} SteadyReadingsMoveNothing(s: State, slips: seq<int>)
    requires s.map_.firstTaken >= 20 && Abs(s.map_.slipMean) <= 4_000_000
    requires AllWithin(slips, 4_000_000)
    ensures var t := FollowAll(s, slips);
      && t == s.(map_ := s.map_.(outside := t.map_.outside, slipMean := t.map_.slipMean))
      && Abs(t.map_.slipMean) <= 4_000_000
    decreases |slips|
  {
    hide Unease, Quo;
    if slips != [] {
      MeanStaysBetween(s.map_.slipMean, slips[0]);
      SteadyReadingsMoveNothing(Follow(s, slips[0]).0, slips[1..]);
    }
  }

  lemma TheMeanIsFollowed(s: State, p: Point)
    requires s.rate > 0 && s.map_.anchored && s.map_.bursty && p.bursty
    requires s.map_.firstTaken >= 20 && -150_000_000 <= Slip(s, p) <= 150_000_000
    ensures Place(s, p).0 == FollowMean(s, Slip(s, p))
  {
    hide FollowMean, FollowFirst, FollowFar, Slip;
  }

  lemma AMappingIsTaken(s: State, m: Mapping, moved: bool)
    ensures var t := WithMapping(s, m, moved, s.jump);
      t.map_ == m && t.index == s.index && t.rate == s.rate && t.queue == if moved then Unease(s.queue) else s.queue
  {
    hide Unease;
  }

  /** The mapping moved by so much is out of step by so much less. */
  lemma SlipOfAnother(s: State, p: Point, t: State)
    requires s.rate > 0 && t.rate == s.rate && t.index == s.index && t.map_.originIndex == s.map_.originIndex
    ensures Slip(t, p) == Slip(s, p) - (t.map_.origin - s.map_.origin)
  {
    hide FrameTime;
  }

  /**
   A reading the running mean takes in moves the mapping if and only if the mean
   leaves the band; it moves by the mean, which lies between what it was and the
   reading, and the stream is then that much less out of step.
   */
  lemma AMoveIsTheMean(s: State, p: Point)
    requires s.rate > 0 && s.map_.anchored && s.map_.bursty && p.bursty
    requires s.map_.firstTaken >= 20 && -150_000_000 <= Slip(s, p) <= 150_000_000
    ensures var t, slip, was := Place(s, p).0, Slip(s, p), s.map_.slipMean;
      var moved := t.map_.origin - s.map_.origin;
      && Slip(t, p) == slip - moved
      && (moved != 0 ==> Abs(moved) > 4_000_000 && t.map_.slipMean == 0 && t.queue == Unease(s.queue))
      && (moved != 0 ==> Min(was, slip) <= moved <= Max(was, slip))
      && (moved == 0 ==> t.queue == s.queue && Abs(t.map_.slipMean) <= 4_000_000
                         && Min(was, slip) <= t.map_.slipMean <= Max(was, slip))
      && (moved != 0 <==> Abs(was + Quo(slip - was, 128)) > 4_000_000)
  {
    hide Unease, Quo, FrameTime, Slip, WithMapping;
    MeanStaysBetween(s.map_.slipMean, Slip(s, p));
    TheMeanIsFollowed(s, p);
    var (m, moved) := RunningMean(s.map_, Slip(s, p));
    AMappingIsTaken(s, m, moved);
    SlipOfAnother(s, p, Place(s, p).0);
  }

  // ---------- readings no burst explains ----------

  /** The third far reading in a row moves the mapping onto itself, and averaging begins again. */
  lemma AThirdFarReadingJumps(s: State, p: Point)
    requires s.rate > 0 && s.map_.anchored && s.map_.bursty && p.bursty
    requires s.map_.outside == 2 && Abs(Slip(s, p)) > 150_000_000
    ensures var t := Place(s, p).0;
      && Slip(t, p) == 0 && t.jump && t.queue == Unease(s.queue)
      && t.map_.firstTaken == 0 && t.map_.firstSum == 0 && t.map_.slipMean == 0
      && t.map_.outside == 0 && t.map_.slips == s.map_.slips + 1
  {
    hide Unease, FrameTime;
  }

  // ---------- strays ----------

  /** A reading that the speaker, or a burst, does not explain. */
  predicate IsStray(s: State, p: Point)
    requires s.rate > 0
  {
    Abs(Slip(s, p)) > if s.map_.bursty then 150_000_000 else 50_000_000
  }

  predicate Strays(s: State, op: Op)
    requires s.rate > 0
  {
    op.OpPlace? && IsStray(s, op.p)
  }

  /** Whatever else is called, no three readings in a row are strays, with `n` just before. */
  predicate NoThreeStrays(s: State, ops: seq<Op>, n: nat)
    requires Ready(s)
    decreases |ops|
  {
    ops == [] ||
    (ApplyStaysReady(s, ops[0]);
     if Strays(s, ops[0]) then n + 1 < 3 && NoThreeStrays(Apply(s, ops[0]), ops[1..], n + 1)
     else NoThreeStrays(Apply(s, ops[0]), ops[1..], if ops[0].OpPlace? then 0 else n))
  }

  /** The same calls without the stray readings. */
  function WithoutStrays(s: State, ops: seq<Op>): seq<Op>
    requires Ready(s)
    decreases |ops|
  {
    if ops == [] then []
    else
      ApplyStaysReady(s, ops[0]);
      (if Strays(s, ops[0]) then [] else [ops[0]]) + WithoutStrays(Apply(s, ops[0]), ops[1..])
  }

  predicate OneOutput(bursty: bool, ops: seq<Op>) {
    forall i | 0 <= i < |ops| && ops[i].OpPlace? :: ops[i].p.bursty == bursty
  }

  predicate SameButOutside(s: State, t: State) {
    t == s.(map_ := s.map_.(outside := t.map_.outside))
  }

  lemma AStrayOnlyCounts(s: State, p: Point)
    requires s.rate > 0 && s.map_.anchored && p.bursty == s.map_.bursty
    requires IsStray(s, p) && s.map_.outside + 1 < SLIP_RUNS
    ensures Place(s, p).0 == s.(map_ := s.map_.(outside := s.map_.outside + 1))
  {
    hide Slip, Unease;
  }

  lemma ANearReadingOnTheSpeaker(s: State, t: State, p: Point)
    requires s.rate > 0 && s.map_.anchored && !p.bursty && !s.map_.bursty && SameButOutside(s, t)
    requires Abs(Slip(s, p)) <= ANCHOR_SLIP
    ensures Place(s, p).0 == s.(map_ := s.map_.(outside := 0)) == Place(t, p).0
  {
    hide FrameTime, Unease, Learn, Follow;
  }

  lemma NearReadingsIgnoreStrays(m: Mapping, outside: int, slip: int)
    ensures Averaged(m, slip) == Averaged(m.(outside := outside), slip)
    ensures RunningMean(m, slip) == RunningMean(m.(outside := outside), slip)
    ensures var a := Averaged(m, slip).0;
      a.outside == 0 && a.anchored == m.anchored && a.bursty == m.bursty && a.slips == m.slips
    ensures var b := RunningMean(m, slip).0;
      b.outside == 0 && b.anchored == m.anchored && b.bursty == m.bursty && b.slips == m.slips
  {
  }

  lemma TheRestIsTheSame(s: State, t: State, m: Mapping, moved: bool, jump: bool)
    requires SameButOutside(s, t)
    ensures WithMapping(s, m, moved, jump) == WithMapping(t, m, moved, jump)
    ensures WithMapping(s, m, moved, jump).map_ == m
    ensures t.map_ == s.map_.(outside := t.map_.outside) && t.jump == s.jump
  {
    hide Unease;
  }

  lemma ANearReadingOnBluetooth(s: State, t: State, slip: int)
    requires SameButOutside(s, t) && -BURSTY_SLIP <= slip <= BURSTY_SLIP
    ensures var u := Follow(s, slip).0;
      && u == Follow(t, slip).0 && u.map_.outside == 0 && u.map_.anchored == s.map_.anchored
      && u.map_.bursty == s.map_.bursty && u.map_.slips == s.map_.slips
  {
    hide FollowFar, Averaged, RunningMean, Unease, SameButOutside, WithMapping;
    NearReadingsIgnoreStrays(s.map_, t.map_.outside, slip);
    var (a, moved) := Averaged(s.map_, slip);
    TheRestIsTheSame(s, t, a, moved, s.jump || moved);
    var (b, shifted) := RunningMean(s.map_, slip);
    TheRestIsTheSame(s, t, b, shifted, s.jump);
  }

  lemma ANearReadingForgetsStrays(s: State, t: State, p: Point)
    requires s.rate > 0 && s.map_.anchored && p.bursty == s.map_.bursty && !IsStray(s, p) && SameButOutside(s, t)
    ensures var u := Place(s, p).0;
      && u == Place(t, p).0 && u.map_.outside == 0 && u.map_.anchored && u.map_.bursty == s.map_.bursty
      && u.map_.slips == s.map_.slips
      && (!s.map_.bursty ==> u == s.(map_ := s.map_.(outside := 0)))
  {
    hide Follow, Watch, Learn, Unease;
    if p.bursty {
      ANearReadingOnBluetooth(s, t, Slip(s, p));
      assert Slip(t, p) == Slip(s, p);
    } else {
      ANearReadingOnTheSpeaker(s, t, p);
    }
  }

  lemma AReadLeavesTheMapping(s: State, t: State, frames: nat)
    requires Ready(s) && Ready(t) && SameButOutside(s, t)
    ensures Read(s, frames).map_ == s.map_ && Read(t, frames).map_ == t.map_
    ensures SameButOutside(Read(s, frames), Read(t, frames))
  {
    hide FinishedInBlock, RunDry;
    assert ToFill(s, frames) == ToFill(t, frames);
  }

  lemma OtherCallsLeaveTheMapping(s: State, t: State, op: Op)
    requires Ready(s) && Ready(t) && SameButOutside(s, t) && !op.OpPlace?
    ensures Apply(s, op).map_ == s.map_ && Apply(t, op).map_ == t.map_
    ensures SameButOutside(Apply(s, op), Apply(t, op))
  {
    hide Read, Inserted, Slot, FrameCount;
    if op.OpRead? {
      AReadLeavesTheMapping(s, t, op.frames);
    }
  }

  lemma {:induction false} StraysMightAsWellNotBe(s: State, t: State, ops: seq<Op>, n: nat)
    requires Ready(s) && Ready(t) && SameButOutside(s, t) && s.map_.anchored && s.map_.outside <= n
    requires OneOutput(s.map_.bursty, ops) && NoThreeStrays(s, ops, n)
    ensures var u := Run(s, ops);
      && SameButOutside(u, Run(t, WithoutStrays(s, ops)))
      && u.map_.anchored && u.map_.bursty == s.map_.bursty && u.map_.slips == s.map_.slips
      && (!s.map_.bursty ==> u.map_ == s.map_.(outside := u.map_.outside))
    decreases |ops|
  {
    hide Apply, Strays;
    if ops != [] {
      var op, later := ops[0], ops[1..];
      ApplyStaysReady(s, op);
      var more := StepWithoutStrays(s, t, op, n);
      StraysMightAsWellNotBe(Apply(s, op), more, later, if Strays(s, op) then n + 1 else if op.OpPlace? then 0 else n);
      var rest := WithoutStrays(Apply(s, op), later);
      if Strays(s, op) {
        assert WithoutStrays(s, ops) == rest;
      } else {
        assert WithoutStrays(s, ops) == [op] + rest && ([op] + rest)[1..] == rest;
      }
    }
  }

  lemma StepWithoutStrays(s: State, t: State, op: Op, n: nat) returns (u: State)
    requires Ready(s) && Ready(t) && SameButOutside(s, t) && s.map_.anchored && s.map_.outside <= n
    requires op.OpPlace? ==> op.p.bursty == s.map_.bursty
    requires Strays(s, op) ==> n + 1 < SLIP_RUNS
    ensures Ready(u) && u == (if Strays(s, op) then t else Apply(t, op))
    ensures var v := Apply(s, op);
      && SameButOutside(v, u) && v.map_.anchored && v.map_.bursty == s.map_.bursty && v.map_.slips == s.map_.slips
      && v.map_.outside <= (if Strays(s, op) then n + 1 else if op.OpPlace? then 0 else n)
      && (!s.map_.bursty ==> v.map_ == s.map_.(outside := v.map_.outside))
  {
    hide IsStray, Place, Read, Write, Slip;
    ApplyStaysReady(t, op);
    if !op.OpPlace? {
      OtherCallsLeaveTheMapping(s, t, op);
    } else if IsStray(s, op.p) {
      AStrayOnlyCounts(s, op.p);
    } else {
      ANearReadingForgetsStrays(s, t, op.p);
    }
    u := if Strays(s, op) then t else Apply(t, op);
  }

  /**
   Through any calls, as long as no three readings in a row are strays, the stream is
   as if the strays had never been read; the mapping of the speaker never moves, and
   that of Bluetooth moves only by the averages of the other readings.
   */
  lemma FewStraysMoveNothing(s: State, ops: seq<Op>)
    requires Ready(s) && s.map_.anchored && OneOutput(s.map_.bursty, ops)
    requires s.map_.outside >= 0 && NoThreeStrays(s, ops, s.map_.outside)
    ensures var u := Run(s, ops);
      && SameButOutside(u, Run(s, WithoutStrays(s, ops))) && u.map_.slips == s.map_.slips
      && (!s.map_.bursty ==> u.map_ == s.map_.(outside := u.map_.outside))
  {
    StraysMightAsWellNotBe(s, s, ops, s.map_.outside);
  }
}
