/**
 The four-timestamp exchange with a server and what it feeds the filter
 (internal/sendspin/time.go; the offset and delay are those of section 8 of
 RFC 5905, with the delay halved). Times are integer microseconds.
 */
module ClockModel {
  import opened GoInt
  import opened TimeFilterModel
  import opened TimeFilterProofs

  datatype Answer = Unasked | OffClock | Backwards | Spent | Measured

  datatype Clock = Clock(filter: Filter, asked: int, awaiting: bool)

  const NEW_CLOCK := Clock(NEW_FILTER, 0, false)

  /** The stamps a server sends back: the question's own, when it came, when the answer left. */
  datatype Stamps = Stamps(transmitted: int, received: int, replied: int)

  predicate OnAClock(us: int) {
    0 <= us <= STAMP_CEILING
  }

  function Offset(s: Stamps, now: int): int {
    Quo((s.received - s.transmitted) + (s.replied - now), 2)
  }

  function Delay(s: Stamps, now: int): int {
    Quo((now - s.transmitted) - (s.replied - s.received), 2)
  }

  /** A question goes out with this stamp, and the one before it is forgotten. */
  function Ask(k: Clock, stamp: int): Clock {
    k.(asked := stamp, awaiting := true)
  }

  predicate Answers(k: Clock, s: Stamps) {
    k.awaiting && s.transmitted == k.asked
  }

  function Heard(k: Clock, s: Stamps, now: int): Answer {
    if !Answers(k, s) then Unasked
    else if !OnAClock(s.received) || !OnAClock(s.replied) then OffClock
    else if s.replied < s.received then Backwards
    else if Delay(s, now) <= 0 then Spent
    else Measured
  }

  function Observe(k: Clock, s: Stamps, now: int): (r: Clock)
    requires k.filter.Valid()
    ensures r.filter.Valid()
  {
    if !Answers(k, s) then k
    else
      var done := k.(awaiting := false);
      if Heard(k, s, now) == Measured
      then done.(filter := Update(k.filter, Offset(s, now), Delay(s, now), now))
      else done
  }

  // ---------- one answer ----------

  /**
   An answer is a measurement exactly when it is one to the question being asked, its
   two stamps are in order and within fifty bits, and the way there and back took two
   microseconds at least. An answer to no question changes nothing; any other ends the
   question, and only a measurement reaches the filter.
   */
  lemma WhenAnAnswerIsAMeasurement(k: Clock, s: Stamps, now: int)
    requires k.filter.Valid()
    ensures Heard(k, s, now) == Measured <==>
              && k.awaiting && s.transmitted == k.asked
              && 0 <= s.received <= s.replied <= 0x4_0000_0000_0000
              && (now - s.transmitted) - (s.replied - s.received) >= 2
    ensures Heard(k, s, now) == Unasked <==> !k.awaiting || s.transmitted != k.asked
    ensures Heard(k, s, now) == Unasked ==> Observe(k, s, now) == k
    ensures Heard(k, s, now) != Unasked ==>
              !Observe(k, s, now).awaiting && Observe(k, s, now).asked == k.asked
    ensures Heard(k, s, now) != Measured ==> Observe(k, s, now).filter == k.filter
    ensures Heard(k, s, now) == Backwards ==> s.replied < s.received
    ensures Heard(k, s, now) == OffClock <==>
              Heard(k, s, now) != Unasked
              && !(0 <= s.received <= 0x4_0000_0000_0000 && 0 <= s.replied <= 0x4_0000_0000_0000)
  {
    QuoBounds((now - s.transmitted) - (s.replied - s.received), 2);
  }

  // ---------- one exchange ----------

  /**
   A server whose clock is `theta` ahead, a path of `out` there, `held` inside it
   and `back` here: the offset is off by no more than the delay and a microsecond,
   whichever way the path is lopsided and however the halves are cut.
   */
  lemma OffsetIsWithinTheDelay(asked: int, theta: int, out: nat, held: nat, back: nat)
    ensures var received := asked + out + theta;
      var s, now := Stamps(asked, received, received + held), asked + out + held + back;
      && Delay(s, now) == (out + back) / 2
      && Abs(Offset(s, now) - theta) <= Delay(s, now) + 1
      && 2 * Abs(Offset(s, now) - theta) <= Max(out, back) - Min(out, back) + 1
  {
    QuoBounds(2 * theta + out - back, 2);
  }

  /** The bound is met: all of the delay on the way out, to a server far behind. */
  lemma OffsetCanBeOffByTheDelay(delay: nat)
    ensures var s, now := Stamps(delay * 2 + 1, 0, 0), 4 * delay + 2;
      Delay(s, now) == delay && Offset(s, now) - -(4 * delay + 2) == delay + 1
  {
  }

  /** Every step of the two sums stays inside 64 bits. */
  lemma ExchangeFits(s: Stamps, now: int)
    requires OnAClock(s.received) && OnAClock(s.replied)
    requires 0 <= s.transmitted <= INT64_LIMIT / 1000 && 0 <= now <= INT64_LIMIT / 1000
    ensures FitsInt64(s.received - s.transmitted) && FitsInt64(s.replied - now)
    ensures FitsInt64((s.received - s.transmitted) + (s.replied - now)) && FitsInt64(Offset(s, now))
    ensures FitsInt64((now - s.transmitted) - (s.replied - s.received)) && FitsInt64(Delay(s, now))
  {
    QuoBounds((s.received - s.transmitted) + (s.replied - now), 2);
    QuoBounds((now - s.transmitted) - (s.replied - s.received), 2);
  }

  /**
   What an accepted answer does to the filter. The filter takes the measurement in
   exactly when it came after the one before; then its offset is no less certain
   than half the delay, the clamp had no part in it, and it lies between what was
   expected and what was measured. Otherwise nothing changes.
   */
  lemma AnAnswerTightensTheFilter(k: Clock, s: Stamps, now: int)
    requires Sound(k.filter) && Heard(k, s, now) == Measured
    ensures var f, g := k.filter, Observe(k, s, now).filter;
      && Delay(s, now) > 0 && Sound(g)
      && (g.lastUpdate > f.lastUpdate <==> now > f.lastUpdate)
      && (now <= f.lastUpdate ==> g == f)
      && (now > f.lastUpdate ==>
            && g.lastUpdate == now && g.offsetCovariance.Bounded?
            && 0.0 <= g.offsetCovariance.v <= Noise(Delay(s, now))
            && (f.count >= 1 ==> Between(Expected(f, now), g.offset, Offset(s, now) as real))
            && (f.count >= 2 ==> Prior(f, Offset(s, now), Delay(s, now), now).offset
                                 + Noise(Delay(s, now)) > LEAST_VARIANCE))
  {
    if now > k.filter.lastUpdate {
      UpdateTightens(k.filter, Offset(s, now), Delay(s, now), now);
    }
    UpdateStaysSound(k.filter, Offset(s, now), Delay(s, now), now);
  }

  // ---------- every run ----------

  /**
   What a player does. `Stamp` is the moment a question is stamped and `Send` the
   lock region that makes it the one being asked; answers may come in between.
   */
  datatype Event = Wait(us: nat) | Stamp | Send | Answer(s: Stamps)

  /**
   `fed` counts the measurements taken, `sent` the questions asked; `crossed` says
   a measurement came in between the stamping of the present question and its
   sending, and `crossing` the same of the one stamped but not yet sent.
   */
  datatype World = World(
    now: int, stamp: int, stamped: bool, clock: Clock,
    sent: nat, fed: nat, crossing: bool, crossed: bool)

  const START := World(0, 0, false, NEW_CLOCK, 0, 0, false, false)

  function Next(w: World, e: Event): (v: World)
    requires w.clock.filter.Valid()
    ensures v.clock.filter.Valid()
  {
    match e
    case Wait(us) => w.(now := w.now + us)
    case Stamp => w.(stamp := w.now, stamped := true, crossing := false)
    case Send =>
      if w.stamped
      then w.(clock := Ask(w.clock, w.stamp), stamped := false, sent := w.sent + 1,
              crossed := w.crossing)
      else w
    case Answer(s) =>
      var took := Heard(w.clock, s, w.now) == Measured;
      w.(clock := Observe(w.clock, s, w.now), fed := if took then w.fed + 1 else w.fed,
         crossing := w.crossing || took)
  }

  function After(w: World, es: seq<Event>): (v: World)
    requires w.clock.filter.Valid()
    ensures v.clock.filter.Valid()
    decreases |es|
  {
    if es == [] then w else After(Next(w, es[0]), es[1..])
  }

  predicate InOrder(w: World) {
    && Sound(w.clock.filter)
    && 0 <= w.clock.filter.lastUpdate <= w.now && 0 <= w.clock.asked <= w.now && 0 <= w.stamp <= w.now
    && w.fed + (if w.clock.awaiting then 1 else 0) <= w.sent
    && (w.stamped && !w.crossing ==> w.clock.filter.lastUpdate <= w.stamp)
    && (w.clock.awaiting && !w.crossed ==> w.clock.filter.lastUpdate <= w.clock.asked)
    && (w.stamped && w.crossing ==> w.clock.filter.lastUpdate >= w.stamp)
    && (w.clock.awaiting && w.crossed ==> w.clock.filter.lastUpdate >= w.clock.asked)
  }

  lemma NextStaysInOrder(w: World, e: Event)
    requires InOrder(w)
    ensures InOrder(Next(w, e))
  {
    match e
    case Answer(s) =>
      if Heard(w.clock, s, w.now) == Measured {
        AnAnswerTightensTheFilter(w.clock, s, w.now);
      }
    case _ =>
  }

  lemma {:induction false} AfterStaysInOrder(w: World, es: seq<Event>)
    requires InOrder(w)
    ensures InOrder(After(w, es))
    decreases |es|
  {
    if es != [] {
      NextStaysInOrder(w, es[0]);
      AfterStaysInOrder(Next(w, es[0]), es[1..]);
    }
  }

  /**
   Over every run: the filter is fed no more often than questions were asked, and
   only an answer to the question now being asked can feed it, once.
   */
  lemma EachQuestionFeedsOnce(es: seq<Event>, s: Stamps)
    ensures var w := After(START, es); var v := Next(w, Answer(s));
      && v.fed <= v.sent
      && (v.fed != w.fed ==> w.clock.awaiting && s.transmitted == w.clock.asked
                             && v.fed == w.fed + 1 && !v.clock.awaiting)
      && (!v.clock.awaiting ==>
            forall t :: Next(v, Answer(t)).fed == v.fed && Next(v, Answer(t)).clock == v.clock)
  {
    AfterStaysInOrder(START, es);
    NextStaysInOrder(After(START, es), Answer(s));
  }

  /**
   Over every run: an accepted answer does feed the filter, unless another came in
   after its question was stamped and before that question was sent, so that the
   filter was fed no earlier than the question was stamped.
   */
  lemma AcceptedAnswersFeedTheFilter(es: seq<Event>, s: Stamps)
    ensures var w := After(START, es);
      w.clock.awaiting && w.crossed ==> w.clock.filter.lastUpdate >= w.clock.asked
    ensures var w := After(START, es); var v := Next(w, Answer(s));
      Heard(w.clock, s, w.now) == Measured && !w.crossed ==>
        && w.now > w.clock.filter.lastUpdate && v.clock.filter.lastUpdate == w.now
        && v.clock.filter.offsetCovariance.Bounded?
        && v.clock.filter.offsetCovariance.v <= Noise(Delay(s, w.now))
  {
    AfterStaysInOrder(START, es);
    var w := After(START, es);
    if Heard(w.clock, s, w.now) == Measured && !w.crossed {
      AnswerTakesTime(s, w.now);
      AnAnswerTightensTheFilter(w.clock, s, w.now);
    }
  }

  lemma AnswerTakesTime(s: Stamps, now: int)
    requires s.replied >= s.received && Delay(s, now) > 0
    ensures now > s.transmitted
  {
    QuoBounds((now - s.transmitted) - (s.replied - s.received), 2);
  }

  // ---------- an answer accepted and ignored ----------

  lemma {:induction false} AfterMore(w: World, es: seq<Event>, e: Event)
    requires w.clock.filter.Valid()
    ensures After(w, es + [e]) == Next(After(w, es), e)
    decreases |es|
  {
    hide Next;
    if es == [] {
      assert es + [e] == [e] && [e][1..] == [];
      assert After(Next(w, e), []) == Next(w, e);
    } else {
      assert (es + [e])[1..] == es[1..] + [e];
      AfterMore(Next(w, es[0]), es[1..], e);
    }
  }

  const FIRST := Stamps(3000, 4000, 5_202_100)
  const CROSSING: seq<Event> :=
    [Wait(3000), Stamp, Send] + [Wait(5_200_000)] + [Stamp] + [Wait(100)] + [Answer(FIRST)] + [Send]

  /** A question asked when the one before had no answer for five seconds is sent just as that comes in. */
  lemma ACrossedQuestion()
    ensures var w := After(START, CROSSING);
      w.now == 5_203_100 && w.clock == Clock(Update(NEW_FILTER, 0, 1000, 5_203_100), 5_203_000, true) && w.crossed
  {
    hide Update;
    var a := [Wait(3000), Stamp, Send];
    assert After(START, a) == World(3000, 3000, false, Clock(NEW_FILTER, 3000, true), 1, 0, false, false) by {
      assert [Wait(3000), Stamp, Send] == [] + [Wait(3000)] + [Stamp] + [Send];
      AfterMore(START, [], Wait(3000));
      AfterMore(START, [] + [Wait(3000)], Stamp);
      AfterMore(START, [] + [Wait(3000)] + [Stamp], Send);
    }
    AfterMore(START, a, Wait(5_200_000));
    AfterMore(START, a + [Wait(5_200_000)], Stamp);
    AfterMore(START, a + [Wait(5_200_000)] + [Stamp], Wait(100));
    AfterMore(START, a + [Wait(5_200_000)] + [Stamp] + [Wait(100)], Answer(FIRST));
    AfterMore(START, a + [Wait(5_200_000)] + [Stamp] + [Wait(100)] + [Answer(FIRST)], Send);
    assert Offset(FIRST, 5_203_100) == 0 && Delay(FIRST, 5_203_100) == 1000;
  }

  /**
   A run after which an answer, heard in the very microsecond of the one before, is
   accepted, called a measurement, and not taken in: the filter stays less certain
   than the answer.
   */
  lemma AnAcceptedAnswerCanBeIgnored()
    ensures var w, s := After(START, CROSSING), Stamps(5_203_000, 5_203_050, 5_203_050);
      && Sound(w.clock.filter) && Heard(w.clock, s, w.now) == Measured && Delay(s, w.now) == 50
      && Next(w, Answer(s)).clock.filter == w.clock.filter
      && w.clock.filter.offsetCovariance.Bounded? && w.clock.filter.offsetCovariance.v > Noise(Delay(s, w.now))
  {
    ACrossedQuestion();
    UpdateStaysSound(NEW_FILTER, 0, 1000, 5_203_100);
    assert Noise(1000) == 250000.0;
    assert Noise(50) == 625.0;
  }
}
