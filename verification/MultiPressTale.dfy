/**
 What a key's own moves call for (internal/button/button.go:223-356): a story made from
 the events alone, which knows how long the key was held, and nothing of counts, timers
 set or gestures pending.
 */
module MultiPressTale {
  import opened MultiPressModel
  import opened MultiPressProofs

  /** How often the key moved, and what it meant so far. */
  datatype Tale = Tale(moves: nat, history: seq<Happening>)

  const UNTOLD := Tale(0, [])

  predicate HoldIsOpen(history: seq<Happening>) {
    history != [] && history[|history| - 1] == HoldBegins
  }

  /**
   A release ends the hold that is open. Otherwise it is a press, if the key was held
   for less than the hold time, and a whole hold if it was not. A timer means
   something only if the key has not moved since it was set: that a hold begins, or
   that a run of presses closes.
   */
  function Next(holdTime: int, t: Tale, e: Event): Tale {
    match e
    case Presses => t.(moves := t.moves + 1)
    case Releases(held) =>
      Tale(t.moves + 1,
           t.history + if HoldIsOpen(t.history) then [HoldEnds(held)]
                       else if held < holdTime then [ShortPress]
                       else [HoldBegins, HoldEnds(held)])
    case Runs(timer) =>
      if timer.gen != t.moves then t
      else t.(history := t.history + [if timer.Hold? then HoldBegins else RunCloses])
    case _ => t
  }

  function TaleOf(holdTime: int, t: Tale, events: seq<Event>): Tale
    decreases |events|
  {
    if events == [] then t else TaleOf(holdTime, Next(holdTime, t, events[0]), events[1..])
  }

  predicate Follows(s: State, t: Tale) {
    s.gen == t.moves && s.history == t.history
  }

  lemma StepFollows(s: State, t: Tale, e: Event)
    requires Valid(s) && Enabled(s, e) && Follows(s, t)
    ensures Follows(Step(s, e), Next(s.holdTime, t, e)) && Step(s, e).holdTime == s.holdTime
  {
    hide Told, Report;
  }

  lemma {:induction false} RunFollows(s: State, t: Tale, events: seq<Event>)
    requires Valid(s) && Legal(s, events) && Follows(s, t)
    ensures Follows(Run(s, events), TaleOf(s.holdTime, t, events))
    decreases |events|
  {
    hide Valid, Step, Enabled, Next;
    if events != [] {
      StepKeepsValid(s, events[0]);
      StepFollows(s, t, events[0]);
      RunFollows(Step(s, events[0]), Next(s.holdTime, t, events[0]), events[1..]);
    }
  }

  /**
   Over every run: the gestures fired and about to be, and the presses of the run
   still open, are those the events themselves call for.
   */
  lemma EveryRunTellsWhatHappened(holdTime: int, events: seq<Event>)
    requires Legal(Start(holdTime), events)
    ensures var s := Run(Start(holdTime), events);
      Told(TaleOf(holdTime, UNTOLD, events).history) == (s.fired + s.pending, s.count)
  {
    StartIsValid(holdTime);
    RunFollows(Start(holdTime), UNTOLD, events);
    EveryRunTellsTheStory(holdTime, events);
  }

  /**
   Of one release, after any run: while no hold is open it adds a press to the run
   exactly when the key was held for less than the hold time, and says nothing yet;
   held longer, it tells the run, and a hold with its length. A release that ends an
   open hold tells its length alone.
   */
  lemma WhatAReleaseTells(holdTime: int, events: seq<Event>, held: int)
    requires Legal(Start(holdTime), events) && Enabled(Run(Start(holdTime), events), Releases(held))
    ensures var t := TaleOf(holdTime, UNTOLD, events);
      var s := Run(Start(holdTime), events);
      var u := Step(s, Releases(held));
      if HoldIsOpen(t.history) then u.pending == [LongEnd(held)] && u.count == s.count == 0
      else if held < holdTime then u.pending == [] && u.count == s.count + 1
      else u.pending == Report(s.count) + [LongStart, LongEnd(held)] && u.count == 0
  {
    StartIsValid(holdTime);
    RunKeepsValid(Start(holdTime), events);
    RunFollows(Start(holdTime), UNTOLD, events);
    RunKeepsTheHoldTime(Start(holdTime), events);
    hide Run, TaleOf, Told;
  }

  lemma {:induction false} RunKeepsTheHoldTime(s: State, events: seq<Event>)
    requires Legal(s, events)
    ensures Run(s, events).holdTime == s.holdTime
    decreases |events|
  {
    hide Report;
    if events != [] {
      RunKeepsTheHoldTime(Step(s, events[0]), events[1..]);
    }
  }

  // ---------- how a run of presses is told ----------

  /** One press alone is told as one; a number is told of two or more. */
  predicate CountsRight(gestures: seq<Gesture>) {
    forall i | 0 <= i < |gestures| && gestures[i].MultiEnd? :: gestures[i].count >= 2
  }

  lemma {:induction false} ToldCountsRight(history: seq<Happening>)
    ensures CountsRight(Told(history).0)
    decreases |history|
  {
    if history != [] {
      ToldCountsRight(history[..|history| - 1]);
    }
  }

  /** Over every run, what is told of a number of presses is told of more than one. */
  lemma EveryNumberIsOfMany(holdTime: int, events: seq<Event>)
    requires Legal(Start(holdTime), events)
    ensures CountsRight(Run(Start(holdTime), events).fired + Run(Start(holdTime), events).pending)
  {
    EveryRunTellsTheStory(holdTime, events);
    ToldCountsRight(Run(Start(holdTime), events).history);
  }
}
