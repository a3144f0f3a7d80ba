/**
 What the player was opened with and given, told from the calls alone, and what one
 write answers (internal/audio/audio_android.c:35-150).
 */
module RingTale {
  import opened RingModel
  import opened RingProofs
  import opened Wrappers

  /** The most whole frames of 16-bit samples among so many bytes, and among 1920, in bytes. */
  function MostBytes(len: nat, channels: nat): nat
    requires 1 <= channels <= 2
  {
    var n := if len < 1920 then len else 1920;
    if channels == 1 then n / 2 * 2 else n / 4 * 4
  }

  lemma TheMostIsWhole(len: nat, channels: nat)
    requires 1 <= channels <= 2
    ensures Whole(len, 2 * channels) == MostBytes(len, channels)
  {
  }

  // ---------- the calls alone ----------

  /** What a player has been opened with, what it has taken since, and what it is being offered. */
  datatype Player = Shut | Playing(channels: nat, taken: seq<Byte>, offered: seq<Byte>)

  predicate Plays(rate: int, channels: int) {
    rate in {8000, 16000, 22050, 24000, 32000, 44100, 48000} && 1 <= channels <= 2
  }

  predicate Starts(p: Player) {
    p.Playing? ==> 1 <= p.channels <= 2
  }

  function After(p: Player, e: Event): (q: Player)
    requires Starts(p)
    ensures Starts(q)
  {
    match e
    case Opens(rate, channels, works) =>
      if p.Shut? && Plays(rate, channels) && works then Playing(channels, [], []) else p
    case Closes => Shut
    case Asks(pcm, _) => if p.Shut? then p else p.(offered := pcm)
    case Enqueues(takes) =>
      if p.Shut? || !takes then p else p.(taken := p.taken + p.offered[..MostBytes(|p.offered|, p.channels)])
    case _ => p
  }

  predicate IsTold(r: Ring, p: Player) {
    && (r.open <==> p.Playing?)
    && (p.Shut? ==> r.taken == [])
    && (p.Playing? ==>
          && 1 <= p.channels <= 2 && r.frameBytes == 2 * p.channels && r.taken == p.taken
          && (r.at.Asked? ==> r.at.pcm == p.offered)
          && (r.at.Copied? ==> r.at.pcm == p.offered[..MostBytes(|p.offered|, p.channels)]))
  }

  lemma StepIsTold(r: Ring, e: Event, p: Player)
    requires Valid(r) && Enabled(r, e) && IsTold(r, p)
    ensures IsTold(Step(r, e), After(p, e))
  {
    hide InSlots, HeldOk, Contents, Whole, MostBytes, Drained, DrainedAt;
    if p.Playing? {
      TheMostIsWhole(|p.offered|, p.channels);
    }
  }

  function Told(p: Player, events: seq<Event>): (q: Player)
    requires Starts(p)
    ensures Starts(q)
    decreases |events|
  {
    if events == [] then p else Told(After(p, events[0]), events[1..])
  }

  lemma {:induction false} RunIsTold(r: Ring, events: seq<Event>, p: Player)
    requires Valid(r) && Legal(r, events) && IsTold(r, p)
    ensures Starts(p) && Valid(Run(r, events)) && IsTold(Run(r, events), Told(p, events))
    decreases |events|
  {
    if events != [] {
      StepIsTold(r, events[0], p);
      StepKeepsValid(r, events[0]);
      hide Step, Enabled, Valid, After, IsTold;
      RunIsTold(Step(r, events[0]), events[1..], After(p, events[0]));
    }
  }

  /**
   In every run the player is open as the last call that opens or closes one left it,
   with frames of two bytes a channel, has taken what the writes since gave it, and
   between writes is said to have as many frames left as make up what it has not played.
   */
  lemma EveryRunFeedsItsPlayer(events: seq<Event>)
    requires Legal(UNOPENED, events)
    ensures var r, p := Run(UNOPENED, events), Told(Shut, events);
      && Sized(r) && (r.open <==> p.Playing?)
      && (p.Playing? ==> r.taken == p.taken)
      && (p.Playing? && r.at == Idle ==> 2 * p.channels * Pending(r, true) == |p.taken| - |r.played|)
  {
    RunIsTold(UNOPENED, events, Shut);
    var r := Run(UNOPENED, events);
    hide Run, Legal, Told, HeldBefore, Contents;
    if r.open && r.at == Idle {
      PendingIsWhatIsLeft(r);
    }
  }

  // ---------- one write ----------

  lemma {:induction false} DrainedOf(r: Ring, k: nat)
    requires Sized(r)
    ensures Drained(r, k).queue == r.queue[if k < |r.queue| then k else |r.queue|..]
    ensures Drained(r, k).open == r.open && Drained(r, k).frameBytes == r.frameBytes
    decreases k
  {
    if k > 0 && r.queue != [] {
      DrainedOf(Drain(r), k - 1);
    }
  }

  /** How many buffers are still queued when the player is asked. */
  function StillQueued(r: Ring, luck: Luck): nat {
    var drained := if luck.drains == [] then 0 else luck.drains[0];
    if drained < |r.queue| then |r.queue| - drained else 0
  }

  lemma QueuedWhenAsked(r: Ring, luck: Luck)
    requires Sized(r)
    ensures |DrainedAt(r, luck, 0).queue| == StillQueued(r, luck)
  {
    hide Drained;
    if luck.drains != [] {
      DrainedOf(r, luck.drains[0]);
    }
  }

  /** Once it was asked, a write comes to as much as the player takes. */
  lemma AskedIsTaken(r: Quiet, pcm: seq<Byte>, luck: Luck)
    requires Valid(r)
    ensures var answer := Ask(DrainedAt(r, luck, 0), pcm, luck.answers).1;
      Write(r, pcm, luck).1 ==
      if answer.Some? then answer.value else if luck.takes then Whole(|pcm|, r.frameBytes) else -1
  {
    var r0 := DrainedAt(r, luck, 0);
    DrainedAtKeepsValid(r, luck, 0);
    AskKeepsValid(r0, pcm, luck.answers);
    var (a, answer) := Ask(r0, pcm, luck.answers);
    if answer.None? {
      var a1 := DrainedAt(a, luck, 1);
      DrainedAtKeepsValid(a, luck, 1);
      CopyTouchesNoQueuedBuffer(a1);
      hide Valid, DrainedAt, Whole;
    }
  }

  /**
   A write is refused with 0 as long as eight buffers are queued, and otherwise takes the
   most whole frames that 1920 bytes hold, unless the player is closed or fails, or there
   is not one frame.
   */
  lemma WhatAWriteAnswers(r: Quiet, pcm: seq<Byte>, luck: Luck, channels: nat)
    requires Valid(r) && 1 <= channels <= 2 && r.frameBytes == 2 * channels
    ensures Write(r, pcm, luck).1 ==
              if !r.open || !luck.answers then -1
              else if StillQueued(r, luck) >= 8 then 0
              else if |pcm| < 2 * channels || !luck.takes then -1
              else MostBytes(|pcm|, channels)
  {
    hide Write, DrainedAt, Whole, Contents, InSlots, HeldOk;
    DrainedAtKeepsValid(r, luck, 0);
    QueuedWhenAsked(r, luck);
    AskedIsTaken(r, pcm, luck);
    TheMostIsWhole(|pcm|, channels);
  }

  /** What opening answers: 0 if the player plays so, and else -1. */
  lemma WhatOpenAnswers(r: Ring, rate: int, channels: int, works: bool)
    ensures Open(r, rate, channels, works).1 == if Plays(rate, channels) && works then 0 else -1
    ensures !Plays(rate, channels) ==> Open(r, rate, channels, works).0 == r
  {
  }

  /** How many frames are left is known of a player that is open and answers, and of no other. */
  lemma WhatIsPending(r: Ring, answers: bool)
    requires Valid(r) && r.at == Idle
    ensures !r.open || !answers ==> Pending(r, answers) == -1
    ensures r.open && answers ==> 0 <= Pending(r, answers) * r.frameBytes == |r.taken| - |r.played|
  {
    hide HeldBefore, Contents;
    if r.open && answers {
      PendingIsWhatIsLeft(r);
    }
  }

  /** A player that never takes anything is asked 501 times. */
  lemma {:induction false} AFullPlayerIsAsked501Times<S>(
      s: S, buf: seq<Byte>, refused: nat, calls: nat, full: (S, seq<Byte>, nat) -> (S, Option<int>),
      waits: nat -> bool)
    requires buf != [] && refused <= 500 && refused <= STUCK_WAITS
    requires forall t: S, n: nat :: full(t, buf, n) == (t, Some(0))
    requires forall n: nat :: waits(n)
    ensures WriteAll(s, buf, refused, calls, full, waits) == (s, [], Stuck(501))
    decreases STUCK_WAITS - refused
  {
    if refused < STUCK_WAITS {
      AFullPlayerIsAsked501Times(s, buf, refused + 1, calls + 1, full, waits);
    }
  }
}
