/**
 The clone sees a watched key down exactly while a press let through to it is in
 flight (internal/button/button.go:166-206).
 */
module InterceptorProofs {
  import opened InterceptorModel
  import opened Wrappers

  // ---------- what the clone and the callbacks have seen ----------

  /** Whether the clone's copy of a key is down. */
  predicate CloneDown(sent: seq<Sent>, code: int) {
    sent != [] &&
    var last := sent[|sent| - 1];
    if last.code == code && last.value == KEY_PRESS then true
    else if last.code == code && last.value == KEY_RELEASE then false
    else CloneDown(sent[..|sent| - 1], code)
  }

  datatype Pairing = Broken | Closed | Open(mode: Mode)

  function Told(p: Pairing, c: Call): Pairing {
    match c
    case OnDown(_, mode) => if p == Closed then Open(mode) else Broken
    case OnPress(_, mode, _) => if p == Open(mode) then Closed else Broken
  }

  /** How a key's callbacks pair: each press with the down before it, both of one mode. */
  function Paired(calls: seq<Call>, code: int): Pairing {
    if calls == [] then Closed
    else
      var last, before := calls[|calls| - 1], Paired(calls[..|calls| - 1], code);
      if last.code == code then Told(before, last) else before
  }

  lemma CloneDownMore(sent: seq<Sent>, s: Sent, code: int)
    ensures CloneDown(sent + [s], code) ==
            (if s.code == code && s.value == KEY_PRESS then true
             else if s.code == code && s.value == KEY_RELEASE then false
             else CloneDown(sent, code))
  {
    assert (sent + [s])[..|sent|] == sent;
  }

  lemma PairedMore(calls: seq<Call>, c: Call, code: int)
    ensures Paired(calls + [c], code) ==
            if c.code == code then Told(Paired(calls, code), c) else Paired(calls, code)
  {
    assert (calls + [c])[..|calls|] == calls;
  }

  predicate InFlight(s: State, code: int)
    requires code in s.watched
  {
    s.watched[code].pressedAt.Some?
  }

  /** The clone's copy is down exactly while a press that was not intercepted is in flight. */
  predicate InStep(s: State, code: int)
    requires code in s.watched
  {
    CloneDown(s.sent, code) <==> InFlight(s, code) && s.watched[code].latched != Intercept
  }

  /** The callbacks pair up, and one is open exactly while a press that is not passed through is in flight. */
  predicate TellsInPairs(s: State, code: int)
    requires code in s.watched
  {
    Paired(s.calls, code) ==
    if InFlight(s, code) && s.watched[code].latched != PassThrough then Open(s.watched[code].latched) else Closed
  }

  predicate IsPressOf(e: Event, code: int) {
    e.Arrives? && e.input.kind == EV_KEY && e.input.code == code && e.input.value == KEY_PRESS
  }

  predicate IsReleaseOf(e: Event, code: int) {
    e.Arrives? && e.input.kind == EV_KEY && e.input.code == code && e.input.value == KEY_RELEASE
  }

  /** A second press, with the key's mode now one that intercepts it, and the first let through. */
  predicate Sticks(s: State, e: Event, code: int)
    requires code in s.watched
  {
    IsPressOf(e, code) && InFlight(s, code)
    && s.watched[code].latched != Intercept && s.watched[code].mode == Intercept
  }

  /** A second press while one that was told of is in flight. */
  predicate Interrupts(s: State, e: Event, code: int)
    requires code in s.watched
  {
    IsPressOf(e, code) && InFlight(s, code) && s.watched[code].latched != PassThrough
  }

  lemma StepKeepsTheWatched(s: State, e: Event)
    ensures Step(s, e).watched.Keys == s.watched.Keys
  {
  }

  /**
   Whatever arrives, in or out of turn, only one kind of event puts the clone out
   of step: a press intercepted while another that was let through is in flight.
   */
  lemma OnlyAStickingPressLosesStep(s: State, e: Event, code: int)
    requires code in s.watched && InStep(s, code)
    requires Enabled(s, e) && !Step(s, e).dead
    ensures code in Step(s, e).watched
    ensures InStep(Step(s, e), code) <==> !Sticks(s, e, code)
  {
    hide CloneDown;
    if e.Arrives? {
      CloneDownMore(s.sent, Sent(e.input.code, e.input.value), code);
    }
  }

  /** And only a press during another that was told of breaks the pairing of the callbacks. */
  lemma OnlyAnInterruptingPressBreaksAPair(s: State, e: Event, code: int)
    requires code in s.watched && TellsInPairs(s, code) && Enabled(s, e)
    ensures code in Step(s, e).watched
    ensures TellsInPairs(Step(s, e), code) <==> !Interrupts(s, e, code)
  {
    hide Paired;
    if e.Arrives? && e.input.code in s.watched && e.input.kind == EV_KEY {
      var calls := Watched(s.watched[e.input.code], e.input).1;
      if calls == [] {
        assert s.calls + calls == s.calls;
      } else {
        PairedMore(s.calls, calls[0], code);
        assert calls == [calls[0]];
      }
    }
  }

  // ---------- over a run ----------

  predicate AlwaysInStep(s: State, events: seq<Event>, code: int)
    requires code in s.watched
    decreases |events|
  {
    InStep(s, code) &&
    if events == [] then true
    else
      StepKeepsTheWatched(s, events[0]);
      AlwaysInStep(Step(s, events[0]), events[1..], code)
  }

  predicate NeverSticks(s: State, events: seq<Event>, code: int)
    requires code in s.watched
    decreases |events|
  {
    if events == [] then true
    else
      StepKeepsTheWatched(s, events[0]);
      !Sticks(s, events[0], code) && NeverSticks(Step(s, events[0]), events[1..], code)
  }

  predicate AlwaysInPairs(s: State, events: seq<Event>, code: int)
    requires code in s.watched
    decreases |events|
  {
    TellsInPairs(s, code) &&
    if events == [] then true
    else
      StepKeepsTheWatched(s, events[0]);
      AlwaysInPairs(Step(s, events[0]), events[1..], code)
  }

  predicate NeverInterrupts(s: State, events: seq<Event>, code: int)
    requires code in s.watched
    decreases |events|
  {
    if events == [] then true
    else
      StepKeepsTheWatched(s, events[0]);
      !Interrupts(s, events[0], code) && NeverInterrupts(Step(s, events[0]), events[1..], code)
  }

  lemma {:induction false} DeadStaysDead(s: State, events: seq<Event>)
    requires Legal(s, events) && s.dead
    ensures Run(s, events).dead
    decreases |events|
  {
    if events != [] {
      DeadStaysDead(Step(s, events[0]), events[1..]);
    }
  }

  lemma {:induction false} StepsKeepStep(s: State, events: seq<Event>, code: int)
    requires code in s.watched && InStep(s, code) && Legal(s, events) && !Run(s, events).dead
    ensures AlwaysInStep(s, events, code) <==> NeverSticks(s, events, code)
    decreases |events|
  {
    hide InStep, Step, Sticks;
    if events != [] {
      var t := Step(s, events[0]);
      if t.dead {
        DeadStaysDead(t, events[1..]);
      }
      OnlyAStickingPressLosesStep(s, events[0], code);
      if InStep(t, code) {
        StepsKeepStep(t, events[1..], code);
      }
    }
  }

  /**
   Over every run of a route that lives: the clone is in step with a watched key at
   every point if and only if no press of it is intercepted while one let through is
   in flight.
   */
  lemma AKeyIsInStepUnlessItSticks(modes: map<int, Mode>, events: seq<Event>, code: int)
    requires code in modes && Legal(Start(modes), events) && !Run(Start(modes), events).dead
    ensures AlwaysInStep(Start(modes), events, code) <==> NeverSticks(Start(modes), events, code)
  {
    StepsKeepStep(Start(modes), events, code);
  }

  lemma {:induction false} StepsKeepPairs(s: State, events: seq<Event>, code: int)
    requires code in s.watched && TellsInPairs(s, code) && Legal(s, events)
    ensures AlwaysInPairs(s, events, code) <==> NeverInterrupts(s, events, code)
    decreases |events|
  {
    hide TellsInPairs, Step, Interrupts;
    if events != [] {
      var t := Step(s, events[0]);
      OnlyAnInterruptingPressBreaksAPair(s, events[0], code);
      if TellsInPairs(t, code) {
        StepsKeepPairs(t, events[1..], code);
      }
    }
  }

  /** And over every run its callbacks pair up if and only if no press of it comes during one that was told of. */
  lemma AKeyTellsInPairsUnlessInterrupted(modes: map<int, Mode>, events: seq<Event>, code: int)
    requires code in modes && Legal(Start(modes), events)
    ensures AlwaysInPairs(Start(modes), events, code) <==> NeverInterrupts(Start(modes), events, code)
  {
    StepsKeepPairs(Start(modes), events, code);
  }

  // ---------- keys that go down and up in turn ----------

  /** The presses and releases of a key alternate; nothing is known of it before the first. */
  predicate Alternates(events: seq<Event>, code: int, down: Option<bool>) {
    events == [] ||
    if IsPressOf(events[0], code) then down != Some(true) && Alternates(events[1..], code, Some(true))
    else if IsReleaseOf(events[0], code) then down != Some(false) && Alternates(events[1..], code, Some(false))
    else Alternates(events[1..], code, down)
  }

  lemma FlightFollowsTheKey(s: State, e: Event, code: int)
    requires code in s.watched
    ensures code in Step(s, e).watched
    ensures InFlight(Step(s, e), code) ==
            (if IsPressOf(e, code) then true else if IsReleaseOf(e, code) then false else InFlight(s, code))
  {
  }

  lemma {:induction false} AlternatingKeysStayInStepFrom(s: State, events: seq<Event>, code: int, down: Option<bool>)
    requires code in s.watched && Legal(s, events) && Alternates(events, code, down)
    requires InFlight(s, code) == (down == Some(true))
    requires TellsInPairs(s, code) && (!s.dead ==> InStep(s, code))
    ensures code in Run(s, events).watched && TellsInPairs(Run(s, events), code)
    ensures !Run(s, events).dead ==> InStep(Run(s, events), code)
    decreases |events|
  {
    hide InStep, TellsInPairs, Step;
    if events != [] {
      var e := events[0];
      var t := Step(s, e);
      OnlyAnInterruptingPressBreaksAPair(s, e, code);
      FlightFollowsTheKey(s, e, code);
      if t.dead {
        DeadStaysDead(t, events[1..]);
      } else {
        StepKeepsALiveRoute(s, e);
        OnlyAStickingPressLosesStep(s, e, code);
      }
      var now := if IsPressOf(e, code) then Some(true) else if IsReleaseOf(e, code) then Some(false) else down;
      AlternatingKeysStayInStepFrom(t, events[1..], code, now);
    }
  }

  lemma StepKeepsALiveRoute(s: State, e: Event)
    requires !Step(s, e).dead
    ensures !s.dead
  {
  }

  /**
   A watched key whose presses and releases alternate, starting with either, while
   modes change at any moment and the other keys do as they please: while `route`
   runs, the clone's copy is down exactly while a press not intercepted is in
   flight, and the callbacks always come in pairs of one mode.
   */
  lemma AlternatingKeysStayInStep(modes: map<int, Mode>, events: seq<Event>, code: int)
    requires code in modes && Legal(Start(modes), events) && Alternates(events, code, None)
    ensures var s := Run(Start(modes), events);
      && code in s.watched && TellsInPairs(s, code)
      && (!s.dead ==> InStep(s, code))
  {
    AlternatingKeysStayInStepFrom(Start(modes), events, code, None);
  }

  const ACTION := 0

  /** Without that, a key can stay down in the clone after it is let go. */
  lemma AKeyCanStickDown()
    ensures var press, release := Input(EV_KEY, ACTION, KEY_PRESS, 0), Input(EV_KEY, ACTION, KEY_RELEASE, 0);
      var events := [Arrives(press, true), Changes(ACTION, Intercept), Arrives(press, true), Arrives(release, true)];
      var s := Run(Start(map[ACTION := Monitor]), events);
      && Legal(Start(map[ACTION := Monitor]), events)
      && ACTION in s.watched && !s.dead && !InFlight(s, ACTION) && CloneDown(s.sent, ACTION)
  {
    var press, release := Input(EV_KEY, ACTION, KEY_PRESS, 0), Input(EV_KEY, ACTION, KEY_RELEASE, 0);
    var e0, e1, e3 := Arrives(press, true), Changes(ACTION, Intercept), Arrives(release, true);
    var s0 := Start(map[ACTION := Monitor]);
    var s1 := Step(s0, e0);
    assert s1.sent == [Sent(ACTION, KEY_PRESS)];
    var s2 := Step(s1, e1);
    var s3 := Step(s2, e0);
    var s4 := Step(s3, e3);
    assert s4.sent == [Sent(ACTION, KEY_PRESS)];
    FourSteps(s0, e0, e1, e0, e3);
  }

  lemma FourSteps(s: State, a: Event, b: Event, c: Event, d: Event)
    ensures Run(s, [a, b, c, d]) == Step(Step(Step(Step(s, a), b), c), d)
    ensures Legal(s, [a, b, c, d]) ==
            (Enabled(s, a) && Enabled(Step(s, a), b) && Enabled(Step(Step(s, a), b), c)
             && Enabled(Step(Step(Step(s, a), b), c), d))
  {
    hide Step, Enabled;
    assert [a, b, c, d][1..] == [b, c, d] && [b, c, d][1..] == [c, d] && [c, d][1..] == [d] && [d][1..] == [];
    var t := Step(Step(Step(s, a), b), c);
    assert Run(Step(Step(s, a), b), [c, d]) == Run(t, [d]) == Run(Step(t, d), []);
    assert Legal(Step(Step(s, a), b), [c, d]) == (Enabled(Step(Step(s, a), b), c) && Legal(t, [d]));
  }

  // ---------- every other key ----------

  /** What went to the clone of keys nobody watches. */
  function Others(sent: seq<Sent>, watched: set<int>): seq<Sent> {
    if sent == [] then []
    else
      var last, before := sent[|sent| - 1], Others(sent[..|sent| - 1], watched);
      if last.code in watched then before else before + [last]
  }

  /** The key events that arrive of keys nobody watches, as long as the clone takes them. */
  function OthersOf(events: seq<Event>, watched: set<int>): seq<Sent> {
    if events == [] then []
    else
      (if events[0].Arrives? && events[0].takes && events[0].input.kind == EV_KEY
          && events[0].input.code !in watched
       then [Sent(events[0].input.code, events[0].input.value)] else [])
      + OthersOf(events[1..], watched)
  }

  lemma OthersMore(sent: seq<Sent>, s: Sent, watched: set<int>)
    ensures Others(sent + [s], watched) ==
            if s.code in watched then Others(sent, watched) else Others(sent, watched) + [s]
  {
    assert (sent + [s])[..|sent|] == sent;
  }

  lemma StepPassesOthers(s: State, e: Event)
    requires Enabled(s, e)
    ensures Others(Step(s, e).sent, s.watched.Keys) == Others(s.sent, s.watched.Keys) + OthersOf([e], s.watched.Keys)
  {
    hide Others;
    var rest: seq<Event> := [e][1..];
    assert rest == [] && OthersOf(rest, s.watched.Keys) == [];
    assert Others(s.sent, s.watched.Keys) + [] == Others(s.sent, s.watched.Keys);
    if e.Arrives? {
      OthersMore(s.sent, Sent(e.input.code, e.input.value), s.watched.Keys);
    }
  }

  /** Every other key's events reach the clone, all of them and in their order; other kinds of event never do. */
  lemma {:induction false} OtherKeysPassThrough(s: State, events: seq<Event>)
    requires Legal(s, events)
    ensures Others(Run(s, events).sent, s.watched.Keys) ==
            Others(s.sent, s.watched.Keys) + OthersOf(events, s.watched.Keys)
    decreases |events|
  {
    hide Others, Step;
    if events == [] {
      assert Others(s.sent, s.watched.Keys) + [] == Others(s.sent, s.watched.Keys);
    } else {
      StepPassesOthers(s, events[0]);
      StepKeepsTheWatched(s, events[0]);
      OtherKeysPassThrough(Step(s, events[0]), events[1..]);
      var rest: seq<Event> := [events[0]][1..];
      assert rest == [] && OthersOf([events[0]], s.watched.Keys) + OthersOf(events[1..], s.watched.Keys)
             == OthersOf(events, s.watched.Keys);
    }
  }
}
