/** The interceptor (internal/button/button.go:20-207). */
module InterceptorClass {
  import Model = InterceptorModel
  import Proofs = InterceptorProofs
  import opened InterceptorModel
  import opened Wrappers

  class Interceptor {
    var watched: map<int, Watch>
    var sent: seq<Sent>
    var calls: seq<Call>
    var dead: bool

    ghost function Abs(): State
      reads this
    {
      State(watched, sent, calls, dead)
    }

    constructor (modes: map<int, Mode>)
      ensures Abs() == Start(modes)
    {
      watched := map code | code in modes :: Model.Watch(modes[code], None, Intercept);
      sent, calls, dead := [], [], false;
    }

    /** The mode a press of the key would be latched with now. */
    function Mode(code: int): (m: Model.Mode)
      reads this
      ensures code in watched ==> m == Watched(watched[code], Input(EV_KEY, code, KEY_PRESS, 0)).0.latched
      ensures code !in watched ==> m == PassThrough
    {
      if code in watched then watched[code].mode else PassThrough
    }

    method SetMode(code: int, mode: Model.Mode)
      modifies `watched
      ensures Abs() == Model.SetMode(old(Abs()), code, mode)
      ensures code in old(watched) ==> Mode(code) == mode
      ensures forall other | other != code || code !in old(watched) :: Mode(other) == old(Mode(other))
    {
      if code in watched {
        watched := watched[code := watched[code].(mode := mode)];
      }
    }

    method Emit(e: Input, takes: bool)
      modifies `sent, `dead
      ensures Abs() == Model.Emit(old(Abs()), e, takes)
    {
      if takes {
        sent := sent + [Sent(e.code, e.value)];
      } else {
        dead := true;
      }
    }

    lemma KeysStayInStep(s: State, e: Event)
      requires Enabled(s, e)
      ensures Step(s, e).watched.Keys == s.watched.Keys
      ensures !Step(s, e).dead ==> forall code | code in s.watched && Proofs.InStep(s, code) ::
                code in Step(s, e).watched && (Proofs.InStep(Step(s, e), code) <==> !Proofs.Sticks(s, e, code))
      ensures forall code | code in s.watched && Proofs.TellsInPairs(s, code) ::
                code in Step(s, e).watched
                && (Proofs.TellsInPairs(Step(s, e), code) <==> !Proofs.Interrupts(s, e, code))
    {
      Proofs.StepKeepsTheWatched(s, e);
      forall code | code in s.watched && Proofs.TellsInPairs(s, code)
        ensures code in Step(s, e).watched
        ensures Proofs.TellsInPairs(Step(s, e), code) <==> !Proofs.Interrupts(s, e, code)
      {
        Proofs.OnlyAnInterruptingPressBreaksAPair(s, e, code);
      }
      if !Step(s, e).dead {
        forall code | code in s.watched && Proofs.InStep(s, code)
          ensures code in Step(s, e).watched
          ensures Proofs.InStep(Step(s, e), code) <==> !Proofs.Sticks(s, e, code)
        {
          Proofs.OnlyAStickingPressLosesStep(s, e, code);
        }
      }
    }

    /** One event, from the node to the callbacks and the clone. */
    method Route(e: Input, takes: bool)
      requires !dead
      modifies this
      ensures Abs() == Model.Route(old(Abs()), e, takes) && watched.Keys == old(watched.Keys)
      ensures !dead ==> forall code | code in watched && old(code in watched && Proofs.InStep(Abs(), code)) ::
                Proofs.InStep(Abs(), code) <==> !old(Proofs.Sticks(Abs(), Arrives(e, takes), code))
      ensures forall code | code in watched && old(code in watched && Proofs.TellsInPairs(Abs(), code)) ::
                Proofs.TellsInPairs(Abs(), code) <==> !old(Proofs.Interrupts(Abs(), Arrives(e, takes), code))
    {
      KeysStayInStep(Abs(), Arrives(e, takes));
      hide Proofs.InStep, Proofs.TellsInPairs, Proofs.Sticks, Proofs.Interrupts;
      if e.code in watched && e.kind == EV_KEY {
        var on := WatchKey(e);
        if on {
          Emit(e, takes);
        }
      } else if e.kind == EV_KEY {
        Emit(e, takes);
      }
    }

    method WatchKey(e: Input) returns (on: bool)
      requires e.code in watched
      modifies `watched, `calls
      ensures var (w, told, goes) := Watched(old(watched)[e.code], e);
        on == goes && watched == old(watched)[e.code := w] && calls == old(calls) + told
    {
      var w := watched[e.code];
      if e.value == KEY_PRESS {
        w := w.(latched := Mode(e.code), pressedAt := Some(e.now));
        if w.latched != PassThrough {
          calls := calls + [OnDown(e.code, w.latched)];
        }
      } else if e.value == KEY_RELEASE {
        if w.pressedAt.None? {
          w := w.(latched := Mode(e.code));
        } else {
          var held := e.now - w.pressedAt.value;
          w := w.(pressedAt := None);
          if w.latched != PassThrough {
            calls := calls + [OnPress(e.code, w.latched, held)];
          }
        }
      } else if w.pressedAt.None? {
        watched := watched[e.code := w];
        return false;
      }
      watched := watched[e.code := w];
      return w.latched != Intercept;
    }
  }
}
