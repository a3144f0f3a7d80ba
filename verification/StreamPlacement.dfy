/**
 Where timestamps put audio (internal/audio/stream.go:348-366, 464-534): a chunk
 that is not eased plays at the very frame its timestamp names, the mapping is
 the middle of five readings, and one stray reading never moves it.
 */
module StreamPlacement {
  import opened GoInt
  import opened FrameClock
  import opened StreamModel
  import opened StreamState
  import opened StreamFill
  import opened StreamJoins
  import opened StreamRuns

  // ---------- a hard-placed chunk plays when it is due ----------

  /** The frames put out in this block come from the carried chunk or are labelled by its mapping. */
  predicate DueNow(f: Fill, carried: int, written: seq<Written>) {
    f.rate > 0 && f.index >= 0 ==>
      forall i | f.index <= i < |f.log| && f.log[i].Played? && f.log[i].id != carried ::
        f.log[i].id < |written| && f.log[i].due == f.FrameAt(written[f.log[i].id].at)
  }

  predicate HeadDue(f: Fill, carried: int) {
    f.rate > 0 && f.queue != [] && f.queue[0].eased && f.queue[0].id != carried ==>
      f.queue[0].due == f.FrameAt(f.queue[0].at)
  }

  lemma StepKeepsDue(f: Fill, carried: int, written: seq<Written>)
    requires f.Working() && FillOk(f, written) && DueNow(f, carried, written) && HeadDue(f, carried)
    ensures DueNow(Step(f), carried, written) && HeadDue(Step(f), carried)
  {
    hide Heard, DueOrder, Unread, Placed;
    assert f.queue[1..] != [] ==> Untouched(f.queue[1]);
    if |f.queue[0].pcm| != 0 {
      DecideKeeps(f);
      DecideKeepsOk(f, written);
      PlacedKeepsDue(Decide(f), carried, written);
    }
  }

  lemma PlacedKeepsDue(f: Fill, carried: int, written: seq<Written>)
    requires f.Working() && FillOk(f, written) && DueNow(f, carried, written) && HeadDue(f, carried)
    requires f.queue[0].eased && f.queue[0].off < |f.queue[0].pcm|
    ensures DueNow(Placed(f), carried, written) && HeadDue(Placed(f), carried)
  {
    hide Heard, DueOrder, Unread;
    assert f.queue[1..] != [] ==> Untouched(f.queue[1]);
    var c, g := f.queue[0], Placed(f);
    forall i | f.index <= i < |g.log| && g.log[i].Played? && g.log[i].id != carried
      ensures g.log[i].id < |written| && g.log[i].due == f.FrameAt(written[g.log[i].id].at)
    {
      if i < |f.log| {
        assert g.log[i] == f.log[i];
      } else {
        assert g.log[i].id == c.id && g.log[i].due == c.due;
      }
    }
  }

  lemma FinishedKeepsDue(f: Fill, carried: int, written: seq<Written>)
    requires FillOk(f, written) && DueNow(f, carried, written) && HeadDue(f, carried)
    ensures DueNow(Finished(f), carried, written)
    decreases |f.queue|, f.frames - f.pos, HeadLeft(f)
  {
    hide Heard, Shape, Unread, Step;
    if f.pos < f.frames && f.queue != [] {
      assert OffsetsFit(f.queue) by { QueueFits(f, written); }
      StepMakesProgress(f);
      StepKeeps(f, written);
      StepKeepsDue(f, carried, written);
      FinishedKeepsDue(Step(f), carried, written);
    }
  }

  /** What a block plays is what filling it put down; the rest of it is silence. */
  lemma PlayedInBlock(s: State, frames: nat, i: nat)
    requires s.rate > 0 && OffsetsFit(s.queue) && Reading(s) && s.map_.anchored
    requires var log := Read(s, frames).past.log; i < |log| && log[i].Played?
    ensures var f := Finished(ToFill(s, frames));
      i < |f.log| && f.log[i] == Read(s, frames).past.log[i]
  {
    FinishedStaysInBlock(ToFill(s, frames));
  }

  /**
   What the timestamp of a chunk names under the mapping of the block is what it is
   labelled with when it goes out, unless it was part-played before the block.
   */
  lemma PlayedAudioIsLabelled(s: State, frames: nat, log: seq<Cell>, i: nat)
    requires Valid(s) && Reading(s) && s.map_.anchored
    requires log == Read(s, frames).past.log && s.index <= i < |log| && log[i].Played?
    requires s.queue != [] && s.queue[0].off > 0 ==> s.queue[0].id != log[i].id
    ensures log[i].id < |s.past.written| && FollowsTheRule(log[i], i, s.past.written)
    ensures log[i].due == s.map_.originIndex + FrameCount(s.rate, s.past.written[log[i].id].at - s.map_.origin)
  {
    hide Joined, LastSounded, FramesOf, Unread, DueOrder, OnePlaceEach, AllBehind, Finished, Read;
    var f := ToFill(s, frames);
    var carried := if s.queue != [] && s.queue[0].off > 0 then s.queue[0].id else -1;
    EntryIsOk(s, frames);
    PlayedInBlock(s, frames, i);
    FinishedKeeps(f, s.past.written);
    FinishedKeepsDue(f, carried, s.past.written);
    assert FollowsTheRule(Finished(f).log[i], i, s.past.written);
  }

  /**
   A frame that no easing moved goes out at the frame its timestamp names under
   the mapping of the block. The one chunk this may not hold of is a head already
   part-played before the block: it keeps the place it started at.
   */
  lemma HardAudioPlaysWhenDue(s: State, frames: nat, log: seq<Cell>, i: nat)
    requires Valid(s) && Reading(s) && s.map_.anchored
    requires log == Read(s, frames).past.log && s.index <= i < |log|
    requires log[i].Played? && !log[i].soft
    requires s.queue != [] && s.queue[0].off > 0 ==> s.queue[0].id != log[i].id
    ensures log[i].id < |s.past.written|
    ensures i - log[i].off == s.map_.originIndex +
              FrameCount(s.rate, s.past.written[log[i].id].at - s.map_.origin)
  {
    hide Valid, Read;
    PlayedAudioIsLabelled(s, frames, log, i);
  }

  // ---------- the mapping is the middle reading ----------

  function CountBelow(xs: seq<int>, v: int): nat {
    if xs == [] then 0 else (if xs[0] < v then 1 else 0) + CountBelow(xs[1..], v)
  }

  function CountAbove(xs: seq<int>, v: int): nat {
    if xs == [] then 0 else (if xs[0] > v then 1 else 0) + CountAbove(xs[1..], v)
  }

  predicate Ascending(xs: seq<int>) {
    forall i, j | 0 <= i < j < |xs| :: xs[i] <= xs[j]
  }

  lemma CountsOfMore(x: int, xs: seq<int>, v: int)
    ensures CountBelow([x] + xs, v) == (if x < v then 1 else 0) + CountBelow(xs, v)
    ensures CountAbove([x] + xs, v) == (if x > v then 1 else 0) + CountAbove(xs, v)
  {
    assert ([x] + xs)[1..] == xs;
  }

  lemma {:induction false} InsortCounts(x: int, sorted: seq<int>, v: int)
    ensures CountBelow(Insort(x, sorted), v) == CountBelow([x] + sorted, v)
    ensures CountAbove(Insort(x, sorted), v) == CountAbove([x] + sorted, v)
  {
    if sorted != [] && x > sorted[0] {
      var less, rest := sorted[1..], Insort(x, sorted[1..]);
      InsortCounts(x, less, v);
      hide CountBelow, CountAbove;
      assert sorted == [sorted[0]] + less;
      CountsOfMore(sorted[0], rest, v);
      CountsOfMore(sorted[0], less, v);
      CountsOfMore(x, sorted, v);
      CountsOfMore(x, less, v);
    }
  }

  lemma {:induction false} InsortAscends(x: int, sorted: seq<int>)
    requires Ascending(sorted)
    ensures Ascending(Insort(x, sorted))
    ensures forall y | y in Insort(x, sorted) :: y == x || y in sorted
  {
    if sorted != [] && x > sorted[0] {
      var rest := Insort(x, sorted[1..]);
      InsortAscends(x, sorted[1..]);
      assert forall y | y in rest :: sorted[0] <= y;
      assert forall j | 0 <= j < |rest| :: rest[j] in rest;
      assert Insort(x, sorted) == [sorted[0]] + rest;
    }
  }

  lemma {:induction false} SortedCounts(xs: seq<int>, v: int)
    ensures Ascending(Sorted(xs))
    ensures CountBelow(Sorted(xs), v) == CountBelow(xs, v)
    ensures CountAbove(Sorted(xs), v) == CountAbove(xs, v)
    ensures forall y | y in Sorted(xs) :: y in xs
  {
    if xs != [] {
      var less, sorted := xs[1..], Sorted(xs[1..]);
      SortedCounts(less, v);
      InsortAscends(xs[0], sorted);
      InsortCounts(xs[0], sorted, v);
      hide CountBelow, CountAbove;
      assert xs == [xs[0]] + less;
      CountsOfMore(xs[0], sorted, v);
      CountsOfMore(xs[0], less, v);
    }
  }

  lemma CountsOfFive(a: int, b: int, c: int, d: int, e: int, v: int)
    requires a <= b <= c <= d <= e
    ensures c < v ==> CountBelow([a, b, c, d, e], v) >= 3
    ensures c > v ==> CountAbove([a, b, c, d, e], v) >= 3
  {
    assert [a, b, c, d, e][1..] == [b, c, d, e] && [b, c, d, e][1..] == [c, d, e];
    assert [c, d, e][1..] == [d, e] && [d, e][1..] == [e] && [e][1..] == [];
    assert CountBelow([c, d, e], v) >= if c < v then 1 else 0;
    assert CountAbove([e], v) == if e > v then 1 else 0;
    assert CountAbove([d, e], v) == (if d > v then 1 else 0) + CountAbove([e], v);
    assert CountAbove([c, d, e], v) == (if c > v then 1 else 0) + CountAbove([d, e], v);
  }

  /** The middle of five is one of them, with no more than two on either side. */
  lemma MiddleOfFive(xs: seq<int>, v: int)
    requires |xs| == ANCHOR_TAKE
    ensures var m := Sorted(xs)[ANCHOR_TAKE / 2];
      && m in xs
      && (CountBelow(xs, v) <= 2 ==> m >= v)
      && (CountAbove(xs, v) <= 2 ==> m <= v)
  {
    SortedCounts(xs, v);
    var r := Sorted(xs);
    assert r == [r[0], r[1], r[2], r[3], r[4]];
    CountsOfFive(r[0], r[1], r[2], r[3], r[4], v);
  }

  /**
   The fifth reading anchors the stream, at one of the five moments they name.
   When three of the five lie between `lo` and `hi`, so does the mapping,
   whatever the other two say.
   */
  lemma AnchorIsTheMiddleReading(s: State, p: Point, lo: int, hi: int)
    requires s.rate > 0 && !s.map_.anchored && p.bursty == s.map_.bursty
    requires |s.map_.candidates| == 4
    ensures var t := Place(s, p).0;
      var read := s.map_.candidates + [Due(s.rate, p) - FrameTime(s.rate, s.index - s.map_.ref)];
      && t.map_.anchored && t.map_.originIndex == s.map_.ref && t.map_.candidates == []
      && t.map_.origin in read
      && (CountBelow(read, lo) <= 2 ==> lo <= t.map_.origin)
      && (CountAbove(read, hi) <= 2 ==> t.map_.origin <= hi)
  {
    var read := s.map_.candidates + [Due(s.rate, p) - FrameTime(s.rate, s.index - s.map_.ref)];
    MiddleOfFive(read, lo);
    MiddleOfFive(read, hi);
    hide Sorted;
  }

  // ---------- a stray reading too many ----------

  /** The third in a row puts the mapping on the reading itself and takes decisions back. */
  lemma AThirdStrayReadingPlacesAgain(s: State, p: Point)
    requires s.rate > 0 && s.map_.anchored && !s.map_.bursty && !p.bursty
    requires s.map_.outside == 2 && Abs(Slip(s, p)) > 50_000_000
    ensures var t := Place(s, p).0;
      && Slip(t, p) == 0 && t.map_.outside == 0 && t.queue == Unease(s.queue)
      && t.map_.slips == s.map_.slips + 1 && Place(s, p).1 == Verdict(0, Slip(s, p), true)
  {
    assert FrameTime(s.rate, 0) == 0;
  }
}
