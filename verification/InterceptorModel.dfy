/**
 Key events on their way to the clone (internal/button/button.go:20-207). A watched
 key's mode may change between any two events; it is read once, when a press begins.
 */
module InterceptorModel {
  import opened Wrappers

  datatype Mode = Intercept | Monitor | PassThrough

  const EV_KEY := 1
  const KEY_RELEASE := 0
  const KEY_PRESS := 1

  datatype Watch = Watch(mode: Mode, pressedAt: Option<int>, latched: Mode)

  /** An event of the grabbed node, and the time `route` sees it. */
  datatype Input = Input(kind: int, code: int, value: int, now: int)

  datatype Sent = Sent(code: int, value: int)

  datatype Call = OnDown(code: int, mode: Mode) | OnPress(code: int, mode: Mode, held: int)

  /** `dead` once the clone refused an event, which ends `route`. */
  datatype State = State(watched: map<int, Watch>, sent: seq<Sent>, calls: seq<Call>, dead: bool)

  function Start(modes: map<int, Mode>): State {
    State(map code | code in modes :: Watch(modes[code], None, Intercept), [], [], false)
  }

  function SetMode(s: State, code: int, mode: Mode): State {
    if code in s.watched then s.(watched := s.watched[code := s.watched[code].(mode := mode)]) else s
  }

  /** What a watched key's event does to its watch, whom it tells, and whether it goes on to the clone. */
  function Watched(w: Watch, e: Input): (Watch, seq<Call>, bool) {
    if e.value == KEY_PRESS then
      var v := w.(latched := w.mode, pressedAt := Some(e.now));
      (v, if v.latched != PassThrough then [OnDown(e.code, v.latched)] else [], v.latched != Intercept)
    else if e.value == KEY_RELEASE then
      if w.pressedAt.None? then
        (w.(latched := w.mode), [], w.mode != Intercept)
      else
        (w.(pressedAt := None),
         if w.latched != PassThrough then [OnPress(e.code, w.latched, e.now - w.pressedAt.value)] else [],
         w.latched != Intercept)
    else
      (w, [], w.pressedAt.Some? && w.latched != Intercept)
  }

  /** An event goes to the clone, which takes it or not. */
  function Emit(s: State, e: Input, takes: bool): State {
    if takes then s.(sent := s.sent + [Sent(e.code, e.value)]) else s.(dead := true)
  }

  /** One turn of the loop of `route`. */
  function Route(s: State, e: Input, takes: bool): State {
    if e.code in s.watched && e.kind == EV_KEY then
      var (w, calls, on) := Watched(s.watched[e.code], e);
      var t := s.(watched := s.watched[e.code := w], calls := s.calls + calls);
      if on then Emit(t, e, takes) else t
    else if e.kind == EV_KEY then Emit(s, e, takes)
    else s
  }

  datatype Event = Arrives(input: Input, takes: bool) | Changes(code: int, mode: Mode)

  predicate Enabled(s: State, e: Event) {
    e.Arrives? ==> !s.dead
  }

  function Step(s: State, e: Event): State {
    match e
    case Arrives(input, takes) => Route(s, input, takes)
    case Changes(code, mode) => SetMode(s, code, mode)
  }

  predicate Legal(s: State, events: seq<Event>)
    decreases |events|
  {
    events == [] || (Enabled(s, events[0]) && Legal(Step(s, events[0]), events[1..]))
  }

  function Run(s: State, events: seq<Event>): State
    decreases |events|
  {
    if events == [] then s else Run(Step(s, events[0]), events[1..])
  }
}
