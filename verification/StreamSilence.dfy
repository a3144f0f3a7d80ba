/**
 A run in which silence comes between frames that were made to follow on from each
 other (internal/audio/stream.go:342-396, 461-486). The player reads blocks of 480
 frames and looks once a block, when it looks at all: it waits ten blocks after it
 learned where an output has reached. Audio 49 ms early is eased toward its due time;
 its first ramp ends a block, the output changes at that moment and changes back later.
 */
module StreamSilence {
  import opened FrameClock
  import opened StreamModel
  import opened StreamState
  import opened StreamRuns
  import opened StreamLeads
  import opened StreamBlocks
  import opened StreamCalls
  import opened Wrappers

  /** Twenty silent blocks, and five readings of a Bluetooth output. */
  lemma Begins() returns (s: State)
    ensures Reachable(s) && Stands(s, 11_520, Chunks(0, 7)) && Knows(s.map_, true, 0, 9600)
    ensures !s.began && s.smooth == 0 && s.easedAt == 0
  {
    s := Stock(7);
    hide Reachable, Chunk;
    s := BlindBlocks(s, 20);
    assert Unease(Chunks(0, 7)) == Chunks(0, 7) by { UneasedChunks(0); }
    s := Switches(s, true, 0);
    s := Learns(s, true, 9600, 0, 1);
  }

  lemma UneasedChunks(k: nat)
    requires k <= 7
    ensures Unease(Chunks(k, 7)) == Chunks(k, 7)
  {
    forall i | 0 <= i < 7 - k ensures Unease(Chunks(k, 7))[i] == Chunk(k + i) {
    }
  }

  /** The first chunk plays for five blocks. */
  lemma PlaysTheFirst() returns (s: State)
    ensures Reachable(s) && Plays(s, 13_920, Chunks(1, 7), 0, 0) && Knows(s.map_, true, 0, 9600)
  {
    s := Begins();
    var f := ToFill(s, BLOCK);
    OneChunkLess(0);
    assert f.FrameAt(40 * MILLISECOND) == 11_520;
    HardOnTheSpot(f);
    var c := Chunk(0).(eased := true, soft := false, place := 11_520, due := 11_520);
    hide Reachable, Decided, Chunks;
    s := PlaysABlock(s, c, 0, 0);
    s := PlaysOn(s, 3);
    s := PlaysABlock(s, s.queue[0], 0, 0);
  }

  /** The ones after it play at once, 49 ms early, and the lag is remembered. */
  lemma PlaysEarly(s: State, k: nat, smooth: int, next: int) returns (t: State)
    requires Reachable(s) && 0 < k < 5 && Plays(s, 13_440 + k * BLOCK, Chunks(k, 7), smooth, 0)
    requires Knows(s.map_, true, 0, 9600) && next == Smoothed(smooth, 2352) && 0 <= next / SMOOTH_ONE < 240
    ensures Reachable(t) && Plays(t, 13_920 + k * BLOCK, Chunks(k + 1, 7), next, 0) && t.map_ == s.map_
  {
    var f := ToFill(s, BLOCK);
    OneChunkLess(k);
    assert FrameCount(48000, DUE[k] * MILLISECOND) == 6192 + k * BLOCK;
    hide FrameCount, Smoothed, Chunks, Reachable;
    SoftAhead(f, 2352, next);
    var c := Chunk(k).(eased := true, soft := true, place := s.index, due := s.index + 2352);
    hide Decided;
    t := PlaysABlock(s, c, next, 0);
  }

  lemma PlaysFive() returns (s: State)
    ensures Reachable(s) && Plays(s, 15_840, Chunks(5, 7), 186_970, 0) && Knows(s.map_, true, 0, 9600)
  {
    hide Reachable, Plays, Chunks;
    s := PlaysTheFirst();
    s := PlaysEarly(s, 1, 0, 48_168);
    s := PlaysEarly(s, 2, 48_168, 95_373);
    s := PlaysEarly(s, 3, 95_373, 141_634);
    s := PlaysEarly(s, 4, 141_634, 186_970);
  }

  /** The sixth lag is enough for a frame of ramp, in the last frame of a block. */
  lemma EndsOnItsRamp() returns (t: State)
    ensures Reachable(t) && Plays(t, 16_320, [Last(16_320, 18_672)], 274_960, 15_840) && Knows(t.map_, true, 0, 9600)
    ensures Stands(t, 16_320, t.queue) && t.past.log[16_319] == RAMP
  {
    hide Reachable, Last, Finished;
    var s := PlaysFive();
    ReachableIsReady(s);
    OneChunkLess(5);
    OneChunkLess(6);
    PlaysThenRamps(ToFill(s, BLOCK));
    t := ReadsABlock(s, [Last(16_320, 18_672)], 274_960, 15_840);
  }

  /**
   A ramp at the end of a block can lead into silence: the output changes just then,
   and the next block goes out without a mapping.
   */
  lemma ARampCanLeadIntoSilence() returns (s: State, p: Point, log: seq<Cell>)
    ensures Reachable(s) && Ready(s) && EndsOnARamp(s) && Ready(Place(s, p).0)
    ensures log == Read(Place(s, p).0, BLOCK).past.log && 0 < s.index == |s.past.log| < |log|
    ensures log[s.index - 1] == s.past.log[s.index - 1] == RAMP && log[s.index] == Blind && RAMP.to != SILENT
  {
    hide Reachable, Place, Plays, Last, RampFrame, Unease, Read;
    s := EndsOnItsRamp();
    ReachableIsReady(s);
    p := ReadingOf(SPEAKER, false);
    var u := Switches(s, false, SPEAKER);
    var v := BlindBlock(u);
    log := v.past.log;
  }

  /** Five readings later it is known where the speaker has reached. */
  lemma LearnsTheSpeaker() returns (s: State)
    ensures Reachable(s) && Plays(s, 18_240, [Last(16_320, 18_672).(eased := false)], 274_960, 15_840)
    ensures Knows(s.map_, false, SPEAKER, 16_320) && s.past.log[18_239] == Blind
  {
    s := EndsOnItsRamp();
    hide Reachable;
    assert Unease(s.queue) == [Last(16_320, 18_672).(eased := false)];
    hide Last, Unease;
    s := Switches(s, false, SPEAKER);
    s := Learns(s, false, 16_320, SPEAKER, 1);
  }

  /**
   Not every ramp joins its neighbours: calls of a new stream bring it to where its
   next frame ramps from one it played before, although the frame before is silence.
   */
  lemma ARampCanJumpOutOfSilence() returns (s: State, log: seq<Cell>)
    ensures Reachable(s) && Ready(s) && Reading(s) && s.map_.anchored && log == Read(s, BLOCK).past.log
    ensures 0 < s.index < |log| && log[s.index].Ramp?
    ensures log[s.index].from == ONE == s.lastOut && log[s.index - 1].Value() == SILENT
  {
    hide Reachable, Last, RampFrame, Finished;
    s := LearnsTheSpeaker();
    ReachableIsReady(s);
    RampsThenPlays(ToFill(s, BLOCK));
    var t := ReadsABlock(s, [Last(18_241, 20_592).(off := BLOCK - 1)], 317_629, 18_240);
    log := t.past.log;
  }

  /** The last chunk plays on for nine blocks more, and Bluetooth is back. */
  lemma LearnsAgain() returns (s: State)
    ensures Reachable(s)
    ensures Plays(s, 24_960, [Last(18_241, 20_592).(off := 10 * BLOCK - 1)], 317_629, 18_240)
    ensures s.past.log[24_959] == Blind
  {
    hide Reachable, RampFrame, Finished;
    s := LearnsTheSpeaker();
    ReachableIsReady(s);
    RampsThenPlays(ToFill(s, BLOCK));
    s := ReadsABlock(s, [Last(18_241, 20_592).(off := BLOCK - 1)], 317_629, 18_240);
    s := PlaysOn(s, 9);
    assert Unease(s.queue) == s.queue;
    s := Switches(s, true, 280 * MILLISECOND);
    s := Learns(s, true, 23_040, 280 * MILLISECOND, 1);
  }

  /** Nor does every smoothed frame: it too can be joined to a frame before a silence. */
  lemma ASmoothedFrameCanJumpOutOfSilence() returns (s: State, log: seq<Cell>)
    ensures Reachable(s) && Ready(s) && Reading(s) && s.map_.anchored && log == Read(s, BLOCK).past.log
    ensures 0 < s.index < |log| && log[s.index].Played? && log[s.index].seam == Some(ONE)
    ensures ONE == s.lastOut && log[s.index - 1].Value() == SILENT
  {
    s := LearnsAgain();
    var t := Then(s, OpRead(BLOCK));
    hide Reachable;
    FinishedStaysInBlock(ToFill(s, BLOCK));
    CatchesUpSmoothed(ToFill(s, BLOCK), s.queue[0]);
    log := t.past.log;
  }
}
