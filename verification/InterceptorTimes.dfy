/**
 What a press is told with, and what goes on to the clone of a key held down
 (internal/button/button.go:166-206), told from the events alone. An event of kind 1
 is a key's: its value is 1 when it goes down, 0 when it goes up, and 2 as it repeats.
 */
module InterceptorTimes {
  import opened InterceptorModel
  import opened InterceptorProofs
  import opened Wrappers

  /** When the press of a key that is in flight began, by the last event of it that was no repeat. */
  function Began(at: Option<int>, e: Event, code: int): Option<int> {
    if !e.Arrives? || e.input.kind != 1 || e.input.code != code then at
    else if e.input.value == 1 then Some(e.input.now)
    else if e.input.value == 0 then None
    else at
  }

  function BeganBy(at: Option<int>, events: seq<Event>, code: int): Option<int>
    decreases |events|
  {
    if events == [] then at else BeganBy(Began(at, events[0], code), events[1..], code)
  }

  lemma StepKnowsTheTime(s: State, e: Event, code: int)
    requires code in s.watched
    ensures code in Step(s, e).watched
    ensures Step(s, e).watched[code].pressedAt == Began(s.watched[code].pressedAt, e, code)
  {
  }

  lemma {:induction false} RunKnowsTheTime(s: State, events: seq<Event>, code: int)
    requires code in s.watched
    ensures code in Run(s, events).watched
    ensures Run(s, events).watched[code].pressedAt == BeganBy(s.watched[code].pressedAt, events, code)
    decreases |events|
  {
    hide Step, Began;
    if events != [] {
      StepKnowsTheTime(s, events[0], code);
      RunKnowsTheTime(Step(s, events[0]), events[1..], code);
    }
  }

  /** What the callbacks hear of a release: how long after its own press it came, or nothing. */
  lemma APressIsToldWithItsLength(modes: map<int, Mode>, events: seq<Event>, code: int, now: int, takes: bool)
    requires code in modes
    ensures var s := Run(Start(modes), events);
      var t := Route(s, Input(1, code, 0, now), takes);
      var began := BeganBy(None, events, code);
      && code in s.watched
      && t.calls == s.calls + (if began.None? || s.watched[code].latched == PassThrough then []
                               else [OnPress(code, s.watched[code].latched, now - began.value)])
  {
    RunKnowsTheTime(Start(modes), events, code);
    hide Run, BeganBy;
    var s := Run(Start(modes), events);
    assert s.calls + [] == s.calls;
  }

  /** Where a watched key's event goes: on to the clone or no further. */
  predicate GoesOn(s: State, e: Input) {
    Route(s, e, false).dead != s.dead
  }

  /** While a key is in step with the clone, its repeats reach the clone exactly while the clone's copy is down. */
  lemma RepeatsReachAKeyThatIsDown(s: State, code: int, value: int, now: int)
    requires code in s.watched && InStep(s, code) && !s.dead && value != 0 && value != 1
    ensures GoesOn(s, Input(1, code, value, now)) <==> CloneDown(s.sent, code)
    ensures Route(s, Input(1, code, value, now), true).calls == s.calls
  {
    hide CloneDown;
    assert s.calls + [] == s.calls;
  }

  /**
   A press is latched with the mode the key has then, and goes on unless it is
   intercepted; its callback is told, unless it passes through. Its release goes where
   the press went, whatever the mode is by then. A release whose press was never seen
   tells nobody and goes on unless the key is intercepted now. Other kinds of event
   of a watched key's code go nowhere.
   */
  lemma WhereAPressGoes(s: State, code: int, now: int, takes: bool)
    requires code in s.watched && !s.dead
    ensures var mode := s.watched[code].mode;
      var t := Route(s, Input(1, code, 1, now), takes);
      && GoesOn(s, Input(1, code, 1, now)) == (mode != Intercept)
      && code in t.watched && t.watched[code] == Watch(mode, Some(now), mode)
      && t.calls == s.calls + (if mode == PassThrough then [] else [OnDown(code, mode)])
    ensures var w := s.watched[code];
      GoesOn(s, Input(1, code, 0, now)) == ((if w.pressedAt.Some? then w.latched else w.mode) != Intercept)
    ensures var t := Route(s, Input(1, code, 0, now), takes);
      code in t.watched && t.watched[code].mode == s.watched[code].mode && t.watched[code].pressedAt == None
    ensures forall kind, value | kind != 1 :: Route(s, Input(kind, code, value, now), takes) == s
  {
    assert s.calls + [] == s.calls;
  }

  /** What goes on reaches the clone as it came, and the route ends if the clone refuses it. */
  lemma WhatGoesOnArrives(s: State, e: Input, takes: bool)
    requires !s.dead && GoesOn(s, e)
    ensures var t := Route(s, e, takes);
      if takes then t.sent == s.sent + [Sent(e.code, e.value)] && !t.dead else t.sent == s.sent && t.dead
  {
  }
}
