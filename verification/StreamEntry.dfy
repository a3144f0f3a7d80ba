/**
 What a stream takes in, and what each call but a read leaves of it
 (internal/audio/stream.go:157-246), in the program's own numbers.
 */
module StreamEntry {
  import opened GoInt
  import opened FrameClock
  import opened StreamModel
  import opened StreamState
  import opened Wrappers

  const HALF_A_MINUTE := 30_000_000_000

  lemma ThirtySeconds(rate: int)
    requires KnownRate(rate)
    ensures FrameCount(rate, STREAM_HOLD) == 30 * rate
  {
  }

  /**
   A chunk is refused, in this order: if it is no whole number of frames; by a stream
   that is closed or was ended and read; by one that was ended; if it is due more than
   half a minute from now; if half a minute would be held with it; if 3000 chunks are.
   */
  lemma WhyAChunkIsRefused(s: State, now: int, at: int, pcm: seq<Byte>)
    requires KnownRate(s.rate)
    ensures Refused(s, now, at, pcm) ==
            if |pcm| % 4 != 0 then Some(PartialFrame)
            else if s.closed || s.spent then Some(StreamClosed)
            else if s.done then Some(StreamDone)
            else if Abs(at - now) > HALF_A_MINUTE then Some(TooFarOff)
            else if 4 * s.held + |pcm| > 120 * s.rate then Some(TooMuchHeld)
            else if |s.queue| >= 3000 then Some(TooManyChunks)
            else None
  {
    ThirtySeconds(s.rate);
  }

  /** One chunk more, at `i`: the others are as they were around it, but the one after it is to be decided anew. */
  predicate OneMore(queue: seq<Queued>, after: seq<Queued>, i: nat) {
    && i <= |queue| && |after| == |queue| + 1
    && (forall k | 0 <= k < i :: after[k] == queue[k])
    && (forall k | i < k < |queue| :: after[k + 1] == queue[k])
    && (i < |queue| ==> after[i + 1] == queue[i].(eased := false))
  }

  /** It comes before all that are due later, but behind what is being played. */
  predicate InTurn(queue: seq<Queued>, at: int, i: nat)
    requires i <= |queue|
  {
    && (i > 0 ==> queue[i - 1].at <= at || queue[i - 1].off != 0)
    && forall k | i <= k < |queue| :: queue[k].at > at && queue[k].off == 0
  }

  /** Nothing of it is played, and its place is not decided. */
  predicate IsFresh(c: Queued, at: int, pcm: seq<Frame>, id: nat) {
    c.at == at && c.pcm == pcm && c.off == 0 && !c.eased && c.id == id
  }

  lemma {:induction false} SlotIsInTurn(queue: seq<Queued>, at: int, i: nat)
    requires i <= |queue| && forall k | i <= k < |queue| :: queue[k].at > at && queue[k].off == 0
    ensures InTurn(queue, at, Slot(queue, at, i))
  {
    if i > 0 && queue[i - 1].at > at && queue[i - 1].off == 0 {
      SlotIsInTurn(queue, at, i - 1);
    }
  }

  lemma InsertedIsOneMore(queue: seq<Queued>, i: nat, c: Queued)
    requires i <= |queue|
    ensures OneMore(queue, Inserted(queue, i, c), i) && Inserted(queue, i, c)[i] == c
  {
  }

  /** What is refused changes nothing; what is taken is queued in its turn, kept account of, and that is all. */
  lemma WhatAWriteLeaves(s: State, now: int, at: int, pcm: seq<Byte>) returns (i: nat)
    requires KnownRate(s.rate)
    ensures Refused(s, now, at, pcm).Some? ==> Write(s, now, at, pcm) == s
    ensures Refused(s, now, at, pcm).None? ==>
              var t := Write(s, now, at, pcm);
              && i <= |s.queue| && OneMore(s.queue, t.queue, i) && InTurn(s.queue, at, i)
              && IsFresh(t.queue[i], at, Decode(pcm), |s.past.written|)
              && t.held == s.held + |Decode(pcm)|
              && t == s.(queue := t.queue, held := t.held, past := s.past.(written := t.past.written))
              && t.past.written == s.past.written + [Written(at, Decode(pcm))]
  {
    i := Slot(s.queue, at, |s.queue|);
    SlotIsInTurn(s.queue, at, |s.queue|);
    if Refused(s, now, at, pcm).None? {
      InsertedIsOneMore(s.queue, i, Fresh(at, Decode(pcm), |s.past.written|));
    }
    hide Slot, Decode, Refused, Inserted, OneMore, InTurn;
  }

  /** What ends a stream, begins it again, empties it or closes it, and what stays as it was. */
  lemma WhatTheOtherCallsLeave(s: State)
    ensures var t := Finish(s);
      if s.closed || s.spent || s.done then t == s
      else t.done && t.queue == [] && t.held == 0 && t.ended == s.ended + s.held && !t.began && t.index == s.index
           && t.map_ == s.map_ && t.late == s.late && t.placed == s.placed && t.silence == s.silence
           && t.jump == s.jump && !t.spent && !t.closed
    ensures Resume(s) == if s.closed || s.spent then s else s.(done := false)
    ensures Close(s) == s.(closed := true)
    ensures var t := Discard(s);
      && t.queue == [] && t.held == 0 && !t.began && t.smooth == 0 && t.easedAt == 0
      && t.index == s.index && t.map_ == s.map_ && t.done == s.done && t.ended == s.ended && t.jump == s.jump
  {
  }

  /** A read of an ended stream spends it, and then it takes nothing more, however often it is resumed. */
  lemma AnEndedStreamIsSpent(s: State, frames: nat, now: int, at: int, pcm: seq<Byte>)
    requires Ready(s) && s.done && !s.closed && !s.spent
    ensures Read(s, frames) == s.(spent := true)
    ensures Resume(Read(s, frames)) == Read(s, frames)
    ensures Read(Read(s, frames), frames) == Read(s, frames)
    ensures |pcm| % 4 == 0 ==> Refused(Read(s, frames), now, at, pcm) == Some(StreamClosed)
  {
  }

  /** Nothing but audio and ramps is heard. */
  lemma SilenceIsZeros(c: Cell)
    ensures !c.Played? && !c.Ramp? ==> c.Value() == Frame(0, 0)
  {
  }
}
