/**
 Every press is told once, as what it was, whatever the timers do
 (internal/button/button.go:267-349).
 */
module MultiPressProofs {
  import opened MultiPressModel
  import opened Wrappers

  // ---------- the story told plainly ----------

  /** The gestures a history calls for, and the presses of the run not yet closed. */
  function Told(history: seq<Happening>): (seq<Gesture>, nat) {
    if history == [] then ([], 0)
    else
      var (said, run) := Told(history[..|history| - 1]);
      match history[|history| - 1]
      case ShortPress => (said, run + 1)
      case RunCloses => (said + Report(run), 0)
      case HoldBegins => (said + Report(run) + [LongStart], 0)
      case HoldEnds(held) => (said + [LongEnd(held)], run)
  }

  /** How many presses were finished. */
  function Finished(history: seq<Happening>): nat {
    if history == [] then 0
    else
      Finished(history[..|history| - 1]) +
      (if history[|history| - 1].ShortPress? || history[|history| - 1].HoldEnds? then 1 else 0)
  }

  /** How many presses the gestures speak for. */
  function SpokenFor(gestures: seq<Gesture>): nat {
    if gestures == [] then 0
    else
      SpokenFor(gestures[..|gestures| - 1]) +
      match gestures[|gestures| - 1]
      case PressEnd => 1
      case MultiEnd(n) => n
      case LongStart => 0
      case LongEnd(_) => 1
  }

  lemma {:induction false} SpokenForBoth(a: seq<Gesture>, b: seq<Gesture>)
    ensures SpokenFor(a + b) == SpokenFor(a) + SpokenFor(b)
    decreases |b|
  {
    if b == [] {
      assert a + b == a;
    } else {
      assert (a + b)[..|a + b| - 1] == a + b[..|b| - 1];
      SpokenForBoth(a, b[..|b| - 1]);
    }
  }

  lemma SpokenForReport(n: nat)
    ensures SpokenFor(Report(n)) == n
  {
    assert n == 1 ==> Report(n)[..0] == [];
    assert n > 1 ==> Report(n)[..0] == [];
  }

  /** Of the presses finished, every one is told or in the run still open. */
  lemma {:induction false} EveryPressIsToldOnce(history: seq<Happening>)
    ensures var (said, run) := Told(history); Finished(history) == SpokenFor(said) + run
    decreases |history|
  {
    if history != [] {
      var before := history[..|history| - 1];
      EveryPressIsToldOnce(before);
      var (said, run) := Told(before);
      SpokenForReport(run);
      SpokenForBoth(said, Report(run));
      SpokenForBoth(said + Report(run), [LongStart]);
      assert SpokenFor([LongStart]) == 0 by { assert [LongStart][..0] == []; }
      if history[|history| - 1].HoldEnds? {
        var end := LongEnd(history[|history| - 1].heldFor);
        SpokenForBoth(said, [end]);
        assert SpokenFor([end]) == 1 by { assert [end][..0] == []; }
      }
    }
  }

  // ---------- what every step keeps ----------

  /** A hold ends just after it begins, and only there; and only a run of presses closes. */
  predicate FollowsAt(history: seq<Happening>, i: nat)
    requires i < |history|
  {
    && (history[i].HoldEnds? <==> i > 0 && history[i - 1] == HoldBegins)
    && (history[i] == RunCloses ==> i > 0 && history[i - 1] == ShortPress)
  }

  predicate EndsWith<T(==)>(s: seq<T>, x: T) {
    s != [] && s[|s| - 1] == x
  }

  predicate Shaped(history: seq<Happening>, holding: bool) {
    && (forall i | 0 <= i < |history| :: FollowsAt(history, i))
    && (holding <==> EndsWith(history, HoldBegins))
  }

  lemma ShapedMore(history: seq<Happening>, holding: bool, h: Happening)
    requires Shaped(history, holding)
    requires h.HoldEnds? <==> holding
    requires h == RunCloses ==> EndsWith(history, ShortPress)
    ensures Shaped(history + [h], h == HoldBegins)
  {
    var more := history + [h];
    forall i | 0 <= i < |more| ensures FollowsAt(more, i) {
      if i < |history| {
        assert FollowsAt(history, i);
      }
    }
  }

  lemma ShapedLess(history: seq<Happening>, holding: bool)
    requires Shaped(history, holding) && history != []
    ensures var before, last := history[..|history| - 1], history[|history| - 1];
      && Shaped(before, EndsWith(before, HoldBegins))
      && (last.HoldEnds? <==> EndsWith(before, HoldBegins))
  {
    var before := history[..|history| - 1];
    forall i | 0 <= i < |history| ensures i < |before| ==> FollowsAt(before, i) {
      assert FollowsAt(history, i);
    }
    assert FollowsAt(history, |history| - 1);
  }

  /** Timers of this generation are the ones the key's last move set, and no other is newer. */
  predicate TimersOk(s: State) {
    && (forall t | t in s.timers :: t.gen <= s.gen)
    && (s.down <==> Hold(s.gen) in s.timers || s.holding)
    && (s.count > 0 && !s.down <==> Gap(s.gen) in s.timers)
    && !(s.holding && Hold(s.gen) in s.timers)
    && s.holdTimer == (if Hold(s.gen) in s.timers then Some(s.gen) else None)
    && s.gapTimer == (if Gap(s.gen) in s.timers then Some(s.gen) else None)
  }

  ghost predicate Valid(s: State) {
    && TimersOk(s) && Shaped(s.history, s.holding)
    && Told(s.history) == (s.fired + s.pending, s.count)
    && (s.count > 0 && !s.down ==> EndsWith(s.history, ShortPress))
    && (s.holding ==> s.down && s.count == 0)
  }

  lemma StartIsValid(holdTime: int)
    ensures Valid(Start(holdTime))
  {
    assert Start(holdTime).fired + Start(holdTime).pending == [];
  }

  lemma ToldMore(history: seq<Happening>, h: Happening)
    ensures Told(history + [h]) ==
            var (said, run) := Told(history);
            match h
            case ShortPress => (said, run + 1)
            case RunCloses => (said + Report(run), 0)
            case HoldBegins => (said + Report(run) + [LongStart], 0)
            case HoldEnds(held) => (said + [LongEnd(held)], run)
  {
    assert (history + [h])[..|history|] == history;
  }

  lemma StepKeepsTimers(s: State, e: Event)
    requires Valid(s) && Enabled(s, e)
    ensures TimersOk(Step(s, e))
  {
    hide Told, Shaped, Report;
  }

  lemma StepKeepsShape(s: State, e: Event)
    requires Valid(s) && Enabled(s, e)
    ensures Shaped(Step(s, e).history, Step(s, e).holding)
  {
    hide Told, Report, Shaped;
    match e
    case Releases(held) =>
      if s.holding {
        ShapedMore(s.history, true, HoldEnds(held));
      } else {
        ShapedMore(s.history, false, ShortPress);
        ShapedMore(s.history, false, HoldBegins);
        ShapedMore(s.history + [HoldBegins], true, HoldEnds(held));
        assert s.history + [HoldBegins, HoldEnds(held)] == s.history + [HoldBegins] + [HoldEnds(held)];
      }
    case Runs(Hold(gen)) =>
      if gen == s.gen {
        ShapedMore(s.history, false, HoldBegins);
      }
    case Runs(Gap(gen)) =>
      if gen == s.gen {
        ShapedMore(s.history, false, RunCloses);
      }
    case _ =>
  }

  lemma StepKeepsTelling(s: State, e: Event)
    requires Valid(s) && Enabled(s, e)
    ensures var t := Step(s, e); Told(t.history) == (t.fired + t.pending, t.count)
  {
    hide Told, Shaped, Report;
    match e
    case Presses =>
    case Releases(held) =>
      ToldMore(s.history, ShortPress);
      ToldMore(s.history, HoldEnds(held));
      ToldMore(s.history, HoldBegins);
      ToldMore(s.history + [HoldBegins], HoldEnds(held));
      assert s.history + [HoldBegins, HoldEnds(held)] == s.history + [HoldBegins] + [HoldEnds(held)];
      assert s.fired + s.pending == s.fired;
      assert s.fired + Report(s.count) + [LongStart] + [LongEnd(held)] ==
             s.fired + (Report(s.count) + [LongStart, LongEnd(held)]);
    case Runs(t) =>
      ToldMore(s.history, HoldBegins);
      ToldMore(s.history, RunCloses);
      assert s.fired + s.pending == s.fired;
      assert s.fired + Report(s.count) + [LongStart] == s.fired + (Report(s.count) + [LongStart]);
    case IsStopped(_) =>
    case Fires =>
      assert s.fired + [s.pending[0]] + s.pending[1..] == s.fired + s.pending;
  }

  lemma StepKeepsValid(s: State, e: Event)
    requires Valid(s) && Enabled(s, e)
    ensures Valid(Step(s, e))
  {
    StepKeepsTimers(s, e);
    StepKeepsShape(s, e);
    StepKeepsTelling(s, e);
    hide Told, Shaped;
  }

  lemma {:induction false} RunKeepsValid(s: State, events: seq<Event>)
    requires Valid(s) && Legal(s, events)
    ensures Valid(Run(s, events))
    decreases |events|
  {
    hide Valid, Step;
    if events != [] {
      StepKeepsValid(s, events[0]);
      RunKeepsValid(Step(s, events[0]), events[1..]);
    }
  }

  // ---------- what that says of every run ----------

  function Releases(events: seq<Event>): nat {
    if events == [] then 0 else (if events[0].Releases? then 1 else 0) + Releases(events[1..])
  }

  lemma FinishedMore(history: seq<Happening>, h: Happening)
    ensures Finished(history + [h]) == Finished(history) + (if h.ShortPress? || h.HoldEnds? then 1 else 0)
  {
    assert (history + [h])[..|history|] == history;
  }

  lemma StepFinishes(s: State, e: Event)
    requires Enabled(s, e)
    ensures Finished(Step(s, e).history) == Finished(s.history) + if e.Releases? then 1 else 0
  {
    hide Finished, Report;
    FinishedMore(s.history, HoldBegins);
    match e
    case Releases(held) =>
      FinishedMore(s.history, ShortPress);
      FinishedMore(s.history, HoldEnds(held));
      FinishedMore(s.history + [HoldBegins], HoldEnds(held));
      assert s.history + [HoldBegins, HoldEnds(held)] == s.history + [HoldBegins] + [HoldEnds(held)];
    case Runs(_) => FinishedMore(s.history, RunCloses);
    case _ =>
  }

  /** Every release finishes one press, and nothing else does. */
  lemma {:induction false} EveryReleaseFinishesAPress(s: State, events: seq<Event>)
    requires Legal(s, events)
    ensures Finished(Run(s, events).history) == Finished(s.history) + Releases(events)
    decreases |events|
  {
    hide Finished, Step, Enabled;
    if events != [] {
      StepFinishes(s, events[0]);
      EveryReleaseFinishesAPress(Step(s, events[0]), events[1..]);
    }
  }

  /** Of every run: the presses finished are those told, those waiting to be told, and the open run. */
  lemma EveryRunAccountsForItsPresses(holdTime: int, events: seq<Event>)
    requires Legal(Start(holdTime), events)
    ensures var s := Run(Start(holdTime), events);
      && Finished(s.history) == SpokenFor(s.fired) + SpokenFor(s.pending) + s.count
      && Finished(s.history) == Releases(events)
  {
    EveryReleaseFinishesAPress(Start(holdTime), events);
    hide Run, Releases, SpokenFor, Finished, Told;
    StartIsValid(holdTime);
    RunKeepsValid(Start(holdTime), events);
    var s := Run(Start(holdTime), events);
    EveryPressIsToldOnce(s.history);
    SpokenForBoth(s.fired, s.pending);
  }

  /** Every gesture fired, or about to be, is the one the key's story calls for, in its order. */
  lemma EveryRunTellsTheStory(holdTime: int, events: seq<Event>)
    requires Legal(Start(holdTime), events)
    ensures var s := Run(Start(holdTime), events);
      Told(s.history) == (s.fired + s.pending, s.count) && Shaped(s.history, s.holding)
  {
    StartIsValid(holdTime);
    RunKeepsValid(Start(holdTime), events);
  }

  /** A hold's end comes just after a start, and only there; a last start is one still open. */
  predicate PairsAt(gestures: seq<Gesture>, i: nat)
    requires i < |gestures|
  {
    gestures[i].LongEnd? <==> i > 0 && gestures[i - 1] == LongStart
  }

  predicate HoldsPair(gestures: seq<Gesture>, open: bool) {
    && (forall i | 0 <= i < |gestures| :: PairsAt(gestures, i))
    && (open <==> EndsWith(gestures, LongStart))
  }

  lemma PairsMore(gestures: seq<Gesture>, open: bool, g: Gesture)
    requires HoldsPair(gestures, open) && (g.LongEnd? <==> open)
    ensures HoldsPair(gestures + [g], g == LongStart)
  {
    var more := gestures + [g];
    forall i | 0 <= i < |more| ensures PairsAt(more, i) {
      if i < |gestures| {
        assert PairsAt(gestures, i);
      }
    }
  }

  lemma {:induction false} ToldHoldsPair(history: seq<Happening>, holding: bool)
    requires Shaped(history, holding)
    ensures HoldsPair(Told(history).0, holding)
    ensures holding ==> Told(history).1 == 0
    decreases |history|
  {
    if history != [] {
      var before, last := history[..|history| - 1], history[|history| - 1];
      ShapedLess(history, holding);
      var open := EndsWith(before, HoldBegins);
      ToldHoldsPair(before, open);
      var (said, run) := Told(before);
      hide HoldsPair, Shaped;
      if open {
        PairsMore(said, true, LongEnd(last.heldFor));
      } else {
        ReportPairs(said, run);
        PairsMore(said + Report(run), false, LongStart);
      }
    }
  }

  lemma ReportPairs(said: seq<Gesture>, run: nat)
    requires HoldsPair(said, false)
    ensures HoldsPair(said + Report(run), false)
  {
    if run == 0 {
      assert said + [] == said;
    } else {
      PairsMore(said, false, Report(run)[0]);
      assert Report(run) == [Report(run)[0]];
    }
  }

  /** In every run, a hold's start is followed at once by its own end. */
  lemma EveryHoldEndsNext(holdTime: int, events: seq<Event>)
    requires Legal(Start(holdTime), events)
    ensures var s := Run(Start(holdTime), events);
      HoldsPair(s.fired + s.pending, s.holding) && (s.holding ==> s.down)
  {
    hide Run, HoldsPair, Shaped, Told;
    StartIsValid(holdTime);
    RunKeepsValid(Start(holdTime), events);
    ToldHoldsPair(Run(Start(holdTime), events).history, Run(Start(holdTime), events).holding);
  }

  /** A run still open while the key is up has its own timer, set by the last release and not stopped. */
  lemma AnOpenRunHasItsTimer(holdTime: int, events: seq<Event>)
    requires Legal(Start(holdTime), events)
    ensures var s := Run(Start(holdTime), events);
      && (s.count > 0 && !s.down ==> Gap(s.gen) in s.timers && s.gapTimer == Some(s.gen))
      && (s.down && !s.holding ==> Hold(s.gen) in s.timers && s.holdTimer == Some(s.gen))
  {
    hide Run, Told, Shaped;
    StartIsValid(holdTime);
    RunKeepsValid(Start(holdTime), events);
  }

  /** Once the key is up, the timers have run and nothing waits to be fired, every press was told. */
  lemma WhenAllIsQuietAllIsTold(holdTime: int, events: seq<Event>)
    requires Legal(Start(holdTime), events)
    requires var s := Run(Start(holdTime), events); !s.down && s.timers == {} && s.pending == []
    ensures var s := Run(Start(holdTime), events);
      Releases(events) == SpokenFor(s.fired) && Told(s.history) == (s.fired, 0)
  {
    hide Run, Releases, Told, Shaped, SpokenFor, Finished;
    var s := Run(Start(holdTime), events);
    EveryRunAccountsForItsPresses(holdTime, events);
    AnOpenRunHasItsTimer(holdTime, events);
    EveryRunTellsTheStory(holdTime, events);
    SpokenForBoth([], []);
    assert [] + s.pending == [] && s.fired + [] == s.fired;
    assert s.fired + s.pending == s.fired;
  }

  // ---------- timers outdated by the key ----------

  lemma {:induction false} GenerationsOnlyGrow(s: State, events: seq<Event>)
    requires Legal(s, events)
    ensures s.gen <= Run(s, events).gen
    decreases |events|
  {
    if events != [] {
      GenerationsOnlyGrow(Step(s, events[0]), events[1..]);
    }
  }

  /**
   Once the key has moved, no timer set before then does anything, however late it
   runs: neither the fields, nor what is fired, nor the timers set since.
   */
  lemma OutdatedTimersDoNothing(s: State, move: Event, events: seq<Event>, t: Timer)
    requires Valid(s) && t in s.timers
    requires (move.Presses? || move.Releases?) && Legal(s, [move] + events)
    requires Enabled(Run(s, [move] + events), Runs(t))
    ensures var later := Run(s, [move] + events);
      Step(later, Runs(t)) == later.(timers := later.timers - {t})
  {
    var all := [move] + events;
    assert all[0] == move && all[1..] == events;
    assert Step(s, move).gen == s.gen + 1 && t.gen <= s.gen;
    GenerationsOnlyGrow(Step(s, move), events);
  }
}
