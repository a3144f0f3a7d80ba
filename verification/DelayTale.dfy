/**
 The delay that is held and the one on disk, told from the events alone (serve.go:432-448,
 571-667; internal/sendspin/command.go:18-21).
 */
module DelayTale {
  import opened DelayModel
  import opened Wrappers

  function Distance(a: int, b: int): nat {
    if a < b then b - a else a - b
  }

  predicate InRange(ms: int) {
    0 <= ms <= 5000
  }

  /** Of all delays from 0 to 5000 ms, the one nearest to what was asked for. */
  ghost predicate IsNearest(held: int, ms: int) {
    InRange(held) && forall d | InRange(d) :: Distance(held, ms) <= Distance(d, ms)
  }

  lemma AHeldDelayIsTheNearest(ms: int, d: int)
    ensures IsNearest(HoldDelayMS(ms), ms)
    ensures IsNearest(d, ms) <==> d == HoldDelayMS(ms)
  {
    assert IsNearest(d, ms) ==> Distance(d, ms) <= Distance(HoldDelayMS(ms), ms);
  }

  // ---------- the events alone ----------

  /** What is held, what the save that was last begun has in hand, and what is on disk. */
  datatype Figures = Figures(held: int, inHand: int, disk: int)

  ghost predicate Follows(before: Figures, e: Event, after: Figures) {
    match e
    case Sets(ms) => IsNearest(after.held, ms) && after == before.(held := after.held)
    case LoopBegins => after == before.(inHand := before.held)
    case FlushBegins => after == before.(inHand := before.held)
    case Saves(ok) => after == if ok then before.(disk := before.inHand) else before
    case _ => after == before
  }

  ghost predicate IsTale(figures: seq<Figures>, events: seq<Event>) {
    && |figures| == |events| + 1
    && forall i | 0 <= i < |events| :: Follows(figures[i], events[i], figures[i + 1])
  }

  function InHand(k: Keeper): Option<int> {
    match k.holder
    case Gate(ms, _, _, _) => Some(ms)
    case Saving(ms, _, _, _) => Some(ms)
    case _ => None
  }

  predicate IsTold(k: Keeper, f: Figures) {
    && k.delayMS == f.held && k.diskMS == f.disk
    && (InHand(k).Some? ==> InHand(k).value == f.inHand)
  }

  lemma StepIsTold(k: Keeper, e: Event, f: Figures) returns (g: Figures)
    requires Enabled(k, e) && IsTold(k, f)
    ensures Follows(f, e, g) && IsTold(Step(k, e), g)
  {
    hide IsNearest;
    match e
    case Sets(ms) =>
      AHeldDelayIsTheNearest(ms, 0);
      g := f.(held := HoldDelayMS(ms));
    case LoopBegins => g := f.(inHand := f.held);
    case FlushBegins => g := f.(inHand := f.held);
    case Saves(ok) => g := if ok then f.(disk := f.inHand) else f;
    case _ => g := f;
  }

  lemma {:induction false} RunIsTold(k: Keeper, events: seq<Event>, f: Figures) returns (figures: seq<Figures>)
    requires Legal(k, events) && IsTold(k, f)
    ensures IsTale(figures, events) && figures[0] == f && IsTold(Run(k, events), figures[|events|])
    decreases |events|
  {
    hide Step, IsTold, Follows;
    if events == [] {
      figures := [f];
    } else {
      var g := StepIsTold(k, events[0], f);
      var rest := RunIsTold(Step(k, events[0]), events[1..], g);
      figures := [f] + rest;
      forall i | 0 <= i < |events| ensures Follows(figures[i], events[i], figures[i + 1]) {
        assert i > 0 ==> figures[i] == rest[i - 1] && events[i] == events[1..][i - 1];
        assert figures[i + 1] == rest[i];
      }
    }
  }

  /**
   In every run what is held is the delay last asked for, brought within range, and what
   is on disk is what was held when the last save that worked was begun.
   */
  lemma EveryRunHoldsWhatWasSet(keepEvery: int, now: int, ms: int, isKnown: bool, events: seq<Event>)
      returns (figures: seq<Figures>)
    requires Legal(Start(keepEvery, now, ms, isKnown), events)
    ensures IsTale(figures, events) && figures[0] == Figures(ms, ms, ms)
    ensures var k, last := Run(Start(keepEvery, now, ms, isKnown), events), figures[|events|];
      k.delayMS == last.held && k.diskMS == last.disk
  {
    hide Run;
    figures := RunIsTold(Start(keepEvery, now, ms, isKnown), events, Figures(ms, ms, ms));
  }

  lemma {:induction false} TalesStayInRange(figures: seq<Figures>, events: seq<Event>, i: nat)
    requires IsTale(figures, events) && i <= |events|
    requires InRange(figures[0].held) && InRange(figures[0].inHand) && InRange(figures[0].disk)
    ensures InRange(figures[i].held) && InRange(figures[i].inHand) && InRange(figures[i].disk)
  {
    if i > 0 {
      TalesStayInRange(figures, events, i - 1);
      assert Follows(figures[i - 1], events[i - 1], figures[i]);
    }
  }

  /** A daemon that starts with a delay within range never holds or writes another. */
  lemma EveryDelayIsInRange(keepEvery: int, now: int, ms: int, isKnown: bool, events: seq<Event>)
    requires Legal(Start(keepEvery, now, ms, isKnown), events) && InRange(ms)
    ensures var k := Run(Start(keepEvery, now, ms, isKnown), events); InRange(k.delayMS) && InRange(k.diskMS)
  {
    hide Run, Legal, IsTale;
    var figures := EveryRunHoldsWhatWasSet(keepEvery, now, ms, isKnown, events);
    TalesStayInRange(figures, events, |events|);
  }

  // ---------- how long a save waits ----------

  /** When a save may come after another: the time set between them later, or a minute if none is set. */
  function NotBefore(k: Keeper): Option<int> {
    if k.wroteAt.None? then None else Some(k.wroteAt.value + if k.keepEvery > 0 then k.keepEvery else 60_000_000_000)
  }

  predicate IsWanted(k: Keeper) {
    k.owes || (k.diskUnknown && k.owedTries in {0, 1, 2})
  }

  /**
   The loop waits for orders, and if a save is wanted until one may come: for no longer
   than that, and not at all if it may come now.
   */
  lemma WhatTheLoopWaitsFor(k: Keeper)
    requires k.loop == Top
    ensures var t := Step(k, Looks);
      && t.loop.Waiting? && (t.loop.due.Some? <==> IsWanted(k))
      && (IsWanted(k) ==>
            && t.loop.due.value >= k.now && (NotBefore(k).Some? ==> t.loop.due.value >= NotBefore(k).value)
            && (t.loop.due.value == k.now || NotBefore(k) == t.loop.due))
  {
  }

  /** A daemon that knows what is on disk starts with nothing to save, and any other saves at once. */
  lemma WhatIsOwedAtFirst(keepEvery: int, now: int, ms: int, isKnown: bool)
    ensures Owed(Start(keepEvery, now, ms, isKnown)) == if isKnown then None else Some(0)
    ensures Step(Start(keepEvery, now, ms, isKnown), Looks).loop == Waiting(if isKnown then None else Some(now))
  {
  }

  /** What passes the gate: whatever is forced, is not wanted after all, or comes late enough. */
  lemma WhatPassesTheGate(k: Keeper)
    requires k.holder.Gate?
    ensures Step(k, Passes).holder.Saving? <==>
              k.holder.forced || !IsWanted(k) || NotBefore(k).None? || k.now >= NotBefore(k).value
    ensures !Step(k, Passes).holder.Saving? ==> Step(k, Passes).holder == Nobody
  {
  }
}
