/** The keeper of the output delay, a method for each stretch of code under its locks (serve.go:432-667). */
module DelayKeeperClass {
  import Model = DelayModel
  import Proofs = DelayProofs
  import opened DelayModel
  import opened Wrappers

  /** The fields `tookDelayLocked` and `keepOwed` write together. */
  datatype Debt = Debt(owes: bool, figure: int, tries: nat)

  /** The attempts made, and those of them on the figure now owed. */
  datatype Tally = Tally(attempts: seq<Attempt>, since: nat, unforced: nat, forced: nat)

  class SendspinSwitch {
    const keepEvery: int
    var now: int
    var delayMS: int
    var diskMS: int
    var diskUnknown: bool
    var debt: Debt
    var wroteAt: Option<int>

    var loop: Loop
    var holder: Holder

    ghost var tally: Tally

    ghost function Abs(): Keeper
      reads this
    {
      Keeper(keepEvery, now, delayMS, diskMS, diskUnknown, debt.owes, debt.figure, debt.tries,
             wroteAt, loop, holder, tally.attempts, tally.since, tally.unforced, tally.forced)
    }

    ghost predicate Valid()
      reads this
    {
      Proofs.Valid(Abs())
    }

    constructor (keepEvery: int, now: int, ms: int, isKnown: bool)
      ensures Abs() == Start(keepEvery, now, ms, isKnown) && Valid()
    {
      this.keepEvery, this.now := keepEvery, now;
      delayMS, diskMS, diskUnknown, debt, wroteAt := ms, ms, !isKnown, Debt(false, ms, 0), None;
      loop, holder := Top, Nobody;
      tally := Tally([], 0, 0, 0);
    }

    method Owed() returns (wait: Option<int>)
      ensures wait == Model.Owed(Abs())
    {
      if !debt.owes && !(diskUnknown && debt.tries < KEEP_TRIES) { return None; }
      var apart := keepEvery;
      if apart <= 0 {
        apart := KEEP_APART;
      }
      if wroteAt.Some? {
        var left := apart - (now - wroteAt.value);
        if left > 0 { return Some(left); }
      }
      return Some(0);
    }

    method Look()
      requires Valid() && loop == Top
      modifies `loop
      ensures Valid() && Abs() == Model.Look(old(Abs()))
    {
      Proofs.LoopStepKeepsValid(Abs(), Looks);
      hide Proofs.Valid;
      var wait := Owed();
      loop := Waiting(if wait.Some? then Some(now + wait.value) else None);
    }

    method ApplyDelay(ms: int)
      requires Valid() && loop.Waiting?
      modifies `delayMS, `loop
      ensures Valid() && Abs() == Set(old(Abs()), ms)
    {
      Proofs.LoopStepKeepsValid(Abs(), Sets(ms));
      hide Proofs.Valid;
      var held := HoldDelayMS(ms);
      if delayMS == held {
        loop := Top;
        return;
      }
      delayMS := held;
      loop := Enters(false, true);
    }

    /** `keepOwed` as far as its first unlock. */
    method Begin(now: bool, isLoop: bool)
      requires Valid() && holder == Nobody
      requires if isLoop then loop.Enters? && loop.forced == now else now
      modifies `debt, `loop, `holder, `tally
      ensures Valid() && Abs() == Model.Begin(old(Abs()), now, isLoop)
    {
      Proofs.BeginKeepsValid(Abs(), now, isLoop);
      hide Proofs.Valid;
      var ms, tries := delayMS, debt.tries;
      if ms != debt.figure {
        tries := 0;
        tally := Tally(tally.attempts, |tally.attempts|, 0, 0);
      }
      debt := Debt(ms != diskMS || diskUnknown, ms, tries);
      if !debt.owes {
        if isLoop {
          loop := Top;
        }
        return;
      }
      if isLoop {
        loop := Inside;
      }
      holder := Gate(ms, tries, now, isLoop);
    }

    /** `keepOwed` goes on to save, unless it is too soon and nobody forces it. */
    method Pass() returns (saves: bool)
      requires Valid() && holder.Gate?
      modifies `loop, `holder, `tally
      ensures Valid() && Abs() == Model.Pass(old(Abs())) && saves == holder.Saving?
    {
      Proofs.PassKeepsValid(Abs());
      hide Proofs.Valid, Model.Owed;
      var wait := Owed();
      if wait.Some? && wait.value > 0 && !holder.forced {
        if holder.isLoop {
          loop := Top;
        }
        holder := Nobody;
        return false;
      }
      var forces := holder.forced;
      tally := Tally(
        tally.attempts + [Attempt(holder.ms, forces, now, None)], tally.since,
        if forces then tally.unforced else tally.unforced + 1, if forces then tally.forced + 1 else tally.forced);
      holder := Saving(holder.ms, holder.tries, holder.forced, holder.isLoop);
      return true;
    }

    /** `keepDelay`, once the save has come back. */
    method KeepDelay(ok: bool)
      requires Valid() && holder.Saving?
      modifies `diskMS, `diskUnknown, `wroteAt, `holder
      ensures Valid() && Abs() == Save(old(Abs()), ok)
    {
      Proofs.SaveKeepsValid(Abs(), ok);
      hide Proofs.Valid;
      if !ok {
        holder := Failed(holder.tries, holder.isLoop);
        return;
      }
      diskMS, wroteAt, diskUnknown := holder.ms, Some(now), false;
      holder := Wrote(holder.ms, holder.isLoop);
    }

    /** The rest of `keepOwed`. */
    method Record()
      requires Valid() && (holder.Wrote? || holder.Failed?) && tally.attempts != []
      modifies `debt, `wroteAt, `loop, `holder, `tally
      ensures Valid() && Abs() == Model.Record(old(Abs()))
    {
      Proofs.RecordKeepsValid(Abs());
      hide Proofs.Valid;
      wroteAt := Some(now);
      ghost var last := |tally.attempts| - 1;
      tally := tally.(attempts := tally.attempts[last := tally.attempts[last].(end := Some(now))]);
      if holder.Wrote? {
        debt := debt.(owes := false, tries := 0);
      } else {
        var tries := holder.tries + 1;
        debt := debt.(tries := tries, owes := tries < KEEP_TRIES);
      }
      if holder.isLoop {
        loop := Top;
      }
      holder := Nobody;
    }
  }
}
