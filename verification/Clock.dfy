/** The clock's own fields and its two lock regions (internal/sendspin/time.go:68-128). */
module ClockClass {
  import opened TimeFilterModel
  import opened TimeFilterProofs
  import opened TimeFilterClass
  import opened ClockModel
  import opened GoInt

  class AskingClock {
    const filter: TimeFilter
    var asked: int
    var awaiting: bool

    ghost function Abs(): Clock
      reads this, filter
    {
      Clock(filter.Abs(), asked, awaiting)
    }

    constructor ()
      ensures Abs() == NEW_CLOCK && Sound(filter.Abs()) && fresh(filter)
    {
      filter := new TimeFilter();
      asked, awaiting := 0, false;
    }

    method Ask(stamp: int)
      modifies this
      ensures Abs() == ClockModel.Ask(old(Abs()), stamp)
    {
      asked, awaiting := stamp, true;
    }

    method Answered(stamp: int) returns (ok: bool)
      modifies this
      ensures ok == (old(awaiting) && stamp == old(asked))
      ensures asked == old(asked) && awaiting == (old(awaiting) && !ok)
    {
      if !awaiting || stamp != asked { return false; }
      awaiting := false;
      return true;
    }

    lemma ObserveStaysSound(k: Clock, s: Stamps, now: int)
      requires Sound(k.filter)
      ensures Sound(ClockModel.Observe(k, s, now).filter)
    {
      UpdateStaysSound(k.filter, Offset(s, now), Delay(s, now), now);
    }

    method Observe(s: Stamps, now: int) returns (answer: Answer)
      requires Sound(filter.Abs())
      modifies this, filter
      ensures Sound(filter.Abs())
      ensures answer == Heard(old(Abs()), s, now)
      ensures Abs() == ClockModel.Observe(old(Abs()), s, now)
    {
      ObserveStaysSound(Abs(), s, now);
      hide Update;
      var ours := Answered(s.transmitted);
      if !ours { return Unasked; }
      if !OnAClock(s.received) || !OnAClock(s.replied) { return OffClock; }
      if s.replied < s.received { return Backwards; }
      var offset := Quo((s.received - s.transmitted) + (s.replied - now), 2);
      var delay := Quo((now - s.transmitted) - (s.replied - s.received), 2);
      if delay <= 0 { return Spent; }
      filter.Update(offset, delay, now);
      return Measured;
    }
  }
}
