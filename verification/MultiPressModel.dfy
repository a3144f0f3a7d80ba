/**
 Presses, runs of presses and holds (internal/button/button.go:223-356), told apart
 by timers that race the key. Each stretch of code under the lock `mu` is one step,
 and so is each gesture fired. A timer, once set, runs at most once, perhaps after
 it was stopped, perhaps long after.
 */
module MultiPressModel {
  import opened Wrappers

  datatype Gesture = PressEnd | MultiEnd(count: nat) | LongStart | LongEnd(heldFor: int)

  /** A timer remembers the generation it was set in. */
  datatype Timer = Gap(gen: nat) | Hold(gen: nat)

  /** What happened, as a person would tell it. */
  datatype Happening = ShortPress | RunCloses | HoldBegins | HoldEnds(heldFor: int)

  /**
   The fields of a `MultiPress`; the timers still to run; what the holder of the
   lock `out` has still to fire, and what was fired. `down` and `history` are the
   key's own story.
   */
  datatype State = State(
    holdTime: int,
    count: nat, holding: bool, gen: nat, gapTimer: Option<nat>, holdTimer: Option<nat>,
    timers: set<Timer>, pending: seq<Gesture>, fired: seq<Gesture>,
    down: bool, history: seq<Happening>)

  function Start(holdTime: int): State {
    State(holdTime, 0, false, 0, None, None, {}, [], [], false, [])
  }

  /** What `report` fires. */
  function Report(count: nat): seq<Gesture> {
    if count == 0 then [] else if count == 1 then [PressEnd] else [MultiEnd(count)]
  }

  function Down(s: State): State {
    var gen := s.gen + 1;
    s.(gen := gen, gapTimer := None, holdTimer := Some(gen), timers := s.timers + {Hold(gen)},
       down := true)
  }

  function Up(s: State, held: int): State {
    var t := s.(gen := s.gen + 1, holdTimer := None, down := false);
    if s.holding then
      t.(holding := false, pending := [LongEnd(held)], history := s.history + [HoldEnds(held)])
    else if held >= s.holdTime then
      t.(count := 0, pending := Report(s.count) + [LongStart, LongEnd(held)],
         history := s.history + [HoldBegins, HoldEnds(held)])
    else
      t.(count := s.count + 1, gapTimer := Some(t.gen), timers := s.timers + {Gap(t.gen)},
         history := s.history + [ShortPress])
  }

  /** The hold timer of a generation runs. */
  function Held(s: State, gen: nat): State {
    var t := s.(timers := s.timers - {Hold(gen)});
    if gen != s.gen then t
    else
      t.(count := 0, holding := true, holdTimer := None, pending := Report(s.count) + [LongStart],
         history := s.history + [HoldBegins])
  }

  /** The gap timer of a generation runs. */
  function Closed(s: State, gen: nat): State {
    var t := s.(timers := s.timers - {Gap(gen)});
    if gen != s.gen then t
    else
      t.(count := 0, gapTimer := None, pending := Report(s.count), history := s.history + [RunCloses])
  }

  function Fire(s: State): State
    requires s.pending != []
  {
    s.(fired := s.fired + [s.pending[0]], pending := s.pending[1..])
  }

  datatype Event =
    | Presses
    | Releases(held: int)
    | Runs(timer: Timer)
    | IsStopped(timer: Timer)
    | Fires

  /** Whether a timer is one the fields still hold. */
  predicate Kept(s: State, t: Timer) {
    match t
    case Gap(gen) => s.gapTimer == Some(gen)
    case Hold(gen) => s.holdTimer == Some(gen)
  }

  /**
   The key goes down and up in turn. `Up` and the timers wait for `out`, and hold
   it until they have fired what they have to; `Down` waits for nothing. A timer
   that was stopped may be stopped in time, and never run.
   */
  predicate Enabled(s: State, e: Event) {
    match e
    case Presses => !s.down
    case Releases(_) => s.down && s.pending == []
    case Runs(t) => t in s.timers && s.pending == []
    case IsStopped(t) => t in s.timers && !Kept(s, t)
    case Fires => s.pending != []
  }

  function Step(s: State, e: Event): State
    requires Enabled(s, e)
  {
    match e
    case Presses => Down(s)
    case Releases(held) => Up(s, held)
    case Runs(t) => if t.Hold? then Held(s, t.gen) else Closed(s, t.gen)
    case IsStopped(t) => s.(timers := s.timers - {t})
    case Fires => Fire(s)
  }

  predicate Legal(s: State, events: seq<Event>)
    decreases |events|
  {
    events == [] || (Enabled(s, events[0]) && Legal(Step(s, events[0]), events[1..]))
  }

  function Run(s: State, events: seq<Event>): State
    requires Legal(s, events)
    decreases |events|
  {
    if events == [] then s else Run(Step(s, events[0]), events[1..])
  }
}
