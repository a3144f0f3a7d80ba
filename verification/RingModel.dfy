/**
 The eight buffers the player is fed from (internal/audio/audio_android.c), and the
 loop that feeds them (internal/audio/mixer.go:140-165). The player takes buffers
 off the front of its queue whenever it likes, between any two steps of the writer.
 */
module RingModel {
  import opened Wrappers

  const CHUNK := 1920
  const NUM_BUFFERS := 8
  const STUCK_WAITS := 500

  /** What the player is given: where in the pool, and how many bytes of it. */
  datatype Buffer = Buffer(index: nat, size: nat)

  /** How far `audio_write` has come. */
  datatype At = Idle | Asked(pcm: seq<Byte>) | Copied(pcm: seq<Byte>) | Queued(pcm: seq<Byte>)

  /** `taken` and `played` are the bytes the player accepted and consumed since it was opened. */
  datatype Ring = Ring(
    frameBytes: nat, pool: seq<seq<Byte>>, held: seq<int>, slot: nat,
    open: bool, queue: seq<Buffer>, at: At, taken: seq<Byte>, played: seq<Byte>)

  /** The length of a pool, and of everything in it. */
  predicate Sized(r: Ring) {
    && |r.pool| == NUM_BUFFERS && (forall i | 0 <= i < NUM_BUFFERS :: |r.pool[i]| == CHUNK)
    && |r.held| == NUM_BUFFERS && r.slot < NUM_BUFFERS && r.frameBytes > 0
    && (forall i | 0 <= i < |r.queue| :: r.queue[i].index < NUM_BUFFERS && r.queue[i].size <= CHUNK)
    && (r.at.Asked? ==> Whole(|r.at.pcm|, r.frameBytes) > 0)
    && (r.at.Copied? || r.at.Queued? ==> |r.at.pcm| <= CHUNK)
  }

  const NO_HELD: seq<int> := [0, 0, 0, 0, 0, 0, 0, 0]

  function Close(r: Ring): Ring {
    r.(open := false, queue := [], slot := 0, held := NO_HELD, taken := [], played := [])
  }

  const RATES := {8000, 16000, 22050, 24000, 32000, 44100, 48000}

  /** `audio_open`; what it sets up may fail. */
  function Open(r: Ring, rate: int, channels: int, works: bool): (Ring, int) {
    if rate !in RATES || channels < 1 || channels > 2 then (r, -1)
    else
      var s := r.(frameBytes := channels * 2, slot := 0, held := NO_HELD);
      if works then (s.(open := true), 0) else (Close(s), -1)
  }

  /** The most whole frames of `len` bytes that one buffer holds, in bytes. */
  function Whole(len: nat, frameBytes: nat): (n: nat)
    requires frameBytes > 0
    ensures n <= len && n <= CHUNK
  {
    var n := if len > CHUNK then CHUNK else len;
    n - n % frameBytes
  }

  // ---------- the steps of audio_write ----------

  /** The player says how many buffers it has; `None` is to go on. */
  function Ask(r: Ring, pcm: seq<Byte>, answers: bool): (a: (Ring, Option<int>))
    requires Sized(r)
    ensures Sized(a.0)
  {
    if !r.open then (r, Some(-1))
    else if !answers then (r, Some(-1))
    else if |r.queue| >= NUM_BUFFERS then (r, Some(0))
    else if Whole(|pcm|, r.frameBytes) == 0 then (r, Some(-1))
    else (r.(at := Asked(pcm)), None)
  }

  function Copy(r: Ring): (c: Ring)
    requires Sized(r) && r.at.Asked?
    ensures Sized(c)
  {
    var data := r.at.pcm[..Whole(|r.at.pcm|, r.frameBytes)];
    r.(pool := r.pool[r.slot := data + r.pool[r.slot][|data|..]], at := Copied(data))
  }

  function Enqueue(r: Ring, takes: bool): (Ring, Option<int>)
    requires Sized(r) && r.at.Copied?
  {
    if !takes then (r.(at := Idle), Some(-1))
    else
      (r.(queue := r.queue + [Buffer(r.slot, |r.at.pcm|)], taken := r.taken + r.at.pcm,
          at := Queued(r.at.pcm)), None)
  }

  function Keep(r: Ring): (Ring, int)
    requires Sized(r) && r.at.Queued?
  {
    (r.(held := r.held[r.slot := |r.at.pcm| / r.frameBytes], slot := (r.slot + 1) % NUM_BUFFERS,
        at := Idle),
     |r.at.pcm|)
  }

  /** The player is done with its first buffer. */
  function Drain(r: Ring): Ring
    requires Sized(r) && r.queue != []
  {
    var b := r.queue[0];
    r.(queue := r.queue[1..], played := r.played + r.pool[b.index][..b.size])
  }

  // ---------- audio_pending ----------

  /** The frames of the `count` slots before `slot`. */
  function HeldBefore(held: seq<int>, slot: nat, count: nat): int
    requires |held| == NUM_BUFFERS && slot < NUM_BUFFERS && count <= NUM_BUFFERS
  {
    if count == 0 then 0
    else HeldBefore(held, slot, count - 1) + held[(slot + NUM_BUFFERS - count) % NUM_BUFFERS]
  }

  function Pending(r: Ring, answers: bool): int
    requires Sized(r)
  {
    if !r.open || !answers || |r.queue| > NUM_BUFFERS then -1
    else HeldBefore(r.held, r.slot, |r.queue|)
  }

  // ---------- any order of steps ----------

  datatype Event =
    | Opens(rate: int, channels: int, works: bool)
    | Closes
    | Asks(pcm: seq<Byte>, answers: bool)
    | Copies
    | Enqueues(takes: bool)
    | Keeps
    | Drains

  /** The writer's steps come in their order; a player is opened only when none is open. */
  predicate Enabled(r: Ring, e: Event) {
    match e
    case Opens(_, _, _) => r.at == Idle && !r.open
    case Closes => r.at == Idle
    case Asks(_, _) => r.at == Idle
    case Copies => r.at.Asked?
    case Enqueues(_) => r.at.Copied?
    case Keeps => r.at.Queued?
    case Drains => r.queue != []
  }

  function Step(r: Ring, e: Event): (s: Ring)
    requires Sized(r) && Enabled(r, e)
    ensures Sized(s)
  {
    match e
    case Opens(rate, channels, works) => Open(r, rate, channels, works).0
    case Closes => Close(r)
    case Asks(pcm, answers) => Ask(r, pcm, answers).0
    case Copies => Copy(r)
    case Enqueues(takes) => Enqueue(r, takes).0
    case Keeps => Keep(r).0
    case Drains => Drain(r)
  }

  predicate Legal(r: Ring, events: seq<Event>)
    requires Sized(r)
    decreases |events|
  {
    events == [] || (Enabled(r, events[0]) && Legal(Step(r, events[0]), events[1..]))
  }

  function Run(r: Ring, events: seq<Event>): Ring
    requires Sized(r) && Legal(r, events)
    decreases |events|
  {
    if events == [] then r else Run(Step(r, events[0]), events[1..])
  }

  const SILENCE: seq<seq<Byte>> := seq(NUM_BUFFERS, _ => seq(CHUNK, _ => 0))

  /** Before anything was opened. */
  const UNOPENED := Ring(2, SILENCE, NO_HELD, 0, false, [], Idle, [], [])

  // ---------- one call of audio_write ----------

  /** What the player does during a call: how much it drains at each point, and what it refuses. */
  datatype Luck = Luck(drains: seq<nat>, answers: bool, takes: bool)

  function Drained(r: Ring, k: nat): (d: Ring)
    requires Sized(r)
    ensures Sized(d) && d.at == r.at
    decreases k
  {
    if k == 0 || r.queue == [] then r else Drained(Drain(r), k - 1)
  }

  function DrainedAt(r: Ring, luck: Luck, i: nat): (d: Ring)
    requires Sized(r)
    ensures Sized(d) && d.at == r.at
  {
    if i < |luck.drains| then Drained(r, luck.drains[i]) else r
  }

  /** A ring between calls. */
  type Quiet = r: Ring | Sized(r) && r.at == Idle witness UNOPENED

  function Write(r: Quiet, pcm: seq<Byte>, luck: Luck): (Quiet, int) {
    var (a, answer) := Ask(DrainedAt(r, luck, 0), pcm, luck.answers);
    if answer.Some? then (a, answer.value)
    else
      var (b, refusal) := Enqueue(DrainedAt(Copy(DrainedAt(a, luck, 1)), luck, 2), luck.takes);
      if refusal.Some? then (b, refusal.value) else Keep(DrainedAt(b, luck, 3))
  }

  // ---------- feeding the player a block ----------

  datatype Outcome = Done | Failed | BadCount(n: int, offered: nat) | Stuck(refused: nat) | Stopping

  /**
   The loop of `writeAll`, `calls` calls in, over any player: `write` is what it does
   with a block, or `None` for an error. With the outcome goes what it took, piece by piece.
   */
  function WriteAll<S>(
      s: S, buf: seq<Byte>, refused: nat, calls: nat,
      write: (S, seq<Byte>, nat) -> (S, Option<int>), waits: nat -> bool): (S, seq<Byte>, Outcome)
    requires refused <= STUCK_WAITS
    decreases |buf|, STUCK_WAITS - refused
  {
    if buf == [] then (s, [], Done)
    else
      var (t, n) := write(s, buf, calls);
      if n.None? then (t, [], Failed)
      else if n.value < 0 || n.value > |buf| then (t, [], BadCount(n.value, |buf|))
      else if n.value == 0 then
        if refused + 1 > STUCK_WAITS then (t, [], Stuck(refused + 1))
        else if !waits(calls) then (t, [], Stopping)
        else WriteAll(t, buf, refused + 1, calls + 1, write, waits)
      else
        var (u, took, outcome) := WriteAll(t, buf[n.value..], 0, calls + 1, write, waits);
        (u, buf[..n.value] + took, outcome)
  }

  /** `writeChunk`, over the ring. */
  function WriteChunk(luck: nat -> Luck): (Quiet, seq<Byte>, nat) -> (Quiet, Option<int>) {
    (r: Quiet, buf: seq<Byte>, call: nat) =>
      var (t, n) := Write(r, buf, luck(call));
      (t, if n < 0 then None else Some(n))
  }
}
