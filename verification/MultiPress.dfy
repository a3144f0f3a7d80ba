/** The recogniser, a method for each stretch of code under its lock (internal/button/button.go:246-356). */
module MultiPressClass {
  import Model = MultiPressModel
  import Proofs = MultiPressProofs
  import opened MultiPressModel
  import opened Wrappers

  class MultiPress {
    const holdTime: int

    var count: nat
    var holding: bool
    var gapTimer: Option<nat>
    var holdTimer: Option<nat>
    var gen: nat

    /** The runtime's timers, and what the holder of `out` fires once it has left `mu`. */
    var timers: set<Timer>
    var pending: seq<Gesture>
    var fired: seq<Gesture>

    ghost var down: bool
    ghost var history: seq<Happening>

    ghost function Abs(): State
      reads this
    {
      State(holdTime, count, holding, gen, gapTimer, holdTimer, timers, pending, fired, down, history)
    }

    ghost predicate Valid()
      reads this
    {
      Proofs.Valid(Abs())
    }

    /** Whether this is a state every gesture is told right in, and the event one that may come in it. */
    ghost predicate InTurn(e: Event)
      reads this
    {
      Valid() && Enabled(Abs(), e)
    }

    constructor (holdTime: int)
      ensures Abs() == Start(holdTime) && Valid()
    {
      this.holdTime := holdTime;
      count, holding, gen, gapTimer, holdTimer := 0, false, 0, None, None;
      timers, pending, fired := {}, [], [];
      down, history := false, [];
      new;
      Proofs.StartIsValid(holdTime);
    }

    lemma KeepsValid(e: Event)
      ensures InTurn(e) ==> Proofs.Valid(Step(Abs(), e))
    {
      if InTurn(e) {
        Proofs.StepKeepsValid(Abs(), e);
      }
    }

    method Down()
      modifies this
      ensures Abs() == Model.Down(old(Abs()))
      ensures old(InTurn(Presses)) ==> Valid()
    {
      KeepsValid(Presses);
      hide Proofs.Valid;
      gen := gen + 1;
      gapTimer := None;
      holdTimer := Some(gen);
      timers := timers + {Hold(gen)};
      down := true;
    }

    method Up(held: int)
      modifies this
      ensures Abs() == Model.Up(old(Abs()), held)
      ensures old(InTurn(Releases(held))) ==> Valid()
    {
      KeepsValid(Releases(held));
      hide Proofs.Valid;
      gen := gen + 1;
      holdTimer := None;
      down := false;
      if holding {
        holding := false;
        pending := [LongEnd(held)];
        history := history + [HoldEnds(held)];
        return;
      }
      if held >= holdTime {
        var n := count;
        count := 0;
        pending := Report(n) + [LongStart, LongEnd(held)];
        history := history + [HoldBegins, HoldEnds(held)];
        return;
      }
      count := count + 1;
      gapTimer := Some(gen);
      timers := timers + {Gap(gen)};
      history := history + [ShortPress];
    }

    method Held(g: nat)
      modifies this
      ensures Abs() == Model.Held(old(Abs()), g)
      ensures old(InTurn(Runs(Hold(g)))) ==> Valid()
    {
      KeepsValid(Runs(Hold(g)));
      hide Proofs.Valid;
      timers := timers - {Hold(g)};
      if g != gen { return; }
      var n := count;
      count := 0;
      holding := true;
      holdTimer := None;
      pending := Report(n) + [LongStart];
      history := history + [HoldBegins];
    }

    method Closed(g: nat)
      modifies this
      ensures Abs() == Model.Closed(old(Abs()), g)
      ensures old(InTurn(Runs(Gap(g)))) ==> Valid()
    {
      KeepsValid(Runs(Gap(g)));
      hide Proofs.Valid;
      timers := timers - {Gap(g)};
      if g != gen { return; }
      var n := count;
      count := 0;
      gapTimer := None;
      pending := Report(n);
      history := history + [RunCloses];
    }

    method Fire()
      requires pending != []
      modifies `pending, `fired
      ensures Abs() == Model.Fire(old(Abs()))
      ensures old(InTurn(Fires)) ==> Valid()
    {
      KeepsValid(Fires);
      hide Proofs.Valid;
      fired := fired + [pending[0]];
      pending := pending[1..];
    }
  }
}
