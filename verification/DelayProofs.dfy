/**
 Saves are kept apart, none is forgotten, and a figure that cannot be saved is
 given up (serve.go:519-604, 632-667).
 */
module DelayProofs {
  import opened DelayModel
  import opened Wrappers

  // ---------- kept apart ----------

  /** An attempt nobody forced began a good while after the one before it was over. */
  predicate ApartAt(k: Keeper, i: nat)
    requires 0 < i < |k.attempts|
  {
    k.attempts[i - 1].end.Some?
    && (!k.attempts[i].forced ==> k.attempts[i].start >= k.attempts[i - 1].end.value + Apart(k))
  }

  predicate InAttempt(k: Keeper) {
    k.holder.Saving? || k.holder.Wrote? || k.holder.Failed?
  }

  predicate AttemptsOk(k: Keeper) {
    && (forall i | 0 < i < |k.attempts| :: ApartAt(k, i))
    && (forall i | 0 <= i < |k.attempts| :: k.attempts[i].end.None? <==> InAttempt(k) && i == |k.attempts| - 1)
    && (InAttempt(k) ==> k.attempts != [])
    && (!InAttempt(k) && k.attempts != [] ==> k.wroteAt == k.attempts[|k.attempts| - 1].end)
    && (k.holder.Gate? ==> k.owes)
  }

  lemma StepKeepsApart(k: Keeper, e: Event)
    requires AttemptsOk(k) && Enabled(k, e)
    ensures AttemptsOk(Step(k, e))
  {
    hide AttemptsOk, Pass, Record, Begin, Save;
    match e
    case LoopBegins => BeginKeepsApart(k, k.loop.forced, true);
    case FlushBegins => BeginKeepsApart(k, true, false);
    case Passes => PassKeepsApart(k);
    case Saves(ok) => SaveKeepsApart(k, ok);
    case Records => RecordKeepsApart(k);
    case _ => LoopKeepsApart(k, e);
  }

  lemma LoopKeepsApart(k: Keeper, e: Event)
    requires AttemptsOk(k) && Enabled(k, e)
    requires e.Ticks? || e.Looks? || e.Sets? || e.SwitchesOn? || e.ComesDue?
    ensures AttemptsOk(Step(k, e))
  {
    var t := Step(k, e);
    forall i | 0 < i < |t.attempts| ensures ApartAt(t, i) {
      assert ApartAt(k, i);
    }
  }

  lemma BeginKeepsApart(k: Keeper, forced: bool, isLoop: bool)
    requires AttemptsOk(k) && k.holder == Nobody
    ensures AttemptsOk(Begin(k, forced, isLoop))
  {
    var t := Begin(k, forced, isLoop);
    forall i | 0 < i < |t.attempts| ensures ApartAt(t, i) {
      assert ApartAt(k, i);
    }
  }

  lemma PassKeepsApart(k: Keeper)
    requires AttemptsOk(k) && k.holder.Gate?
    ensures AttemptsOk(Pass(k))
  {
    var t := Pass(k);
    forall i | 0 < i < |t.attempts| ensures ApartAt(t, i) {
      if i < |k.attempts| {
        assert ApartAt(k, i);
      }
    }
  }

  lemma SaveKeepsApart(k: Keeper, ok: bool)
    requires AttemptsOk(k) && k.holder.Saving?
    ensures AttemptsOk(Save(k, ok))
  {
    var t := Save(k, ok);
    forall i | 0 < i < |t.attempts| ensures ApartAt(t, i) {
      assert ApartAt(k, i);
    }
  }

  lemma RecordKeepsApart(k: Keeper)
    requires AttemptsOk(k) && Enabled(k, Records)
    ensures AttemptsOk(Record(k))
  {
    var t := Record(k);
    forall i | 0 < i < |t.attempts| ensures ApartAt(t, i) {
      assert ApartAt(k, i);
    }
  }

  lemma {:induction false} RunKeepsApart(k: Keeper, events: seq<Event>)
    requires AttemptsOk(k) && Legal(k, events)
    ensures AttemptsOk(Run(k, events))
    decreases |events|
  {
    hide AttemptsOk, Step, Enabled;
    if events != [] {
      StepKeepsApart(k, events[0]);
      RunKeepsApart(Step(k, events[0]), events[1..]);
    }
  }

  /** In every run, a save nobody forced begins at least `keepEvery` after the one before it was over. */
  lemma UnforcedSavesAreKeptApart(
      keepEvery: int, now: int, ms: int, isKnown: bool, events: seq<Event>, i: nat)
    requires Legal(Start(keepEvery, now, ms, isKnown), events)
    requires 0 < i < |Run(Start(keepEvery, now, ms, isKnown), events).attempts|
    ensures var k := Run(Start(keepEvery, now, ms, isKnown), events);
      && k.attempts[i - 1].end.Some?
      && (!k.attempts[i].forced ==> k.attempts[i].start >= k.attempts[i - 1].end.value + Apart(k))
  {
    RunKeepsApart(Start(keepEvery, now, ms, isKnown), events);
    assert ApartAt(Run(Start(keepEvery, now, ms, isKnown), events), i);
  }

  // ---------- what is owed ----------

  /** The loop has a delay to keep that it has not yet looked at. */
  predicate SetPending(k: Keeper) {
    k.loop.Enters? && k.loop.bySet
  }

  /** A forced save is about to be counted. */
  function Coming(k: Keeper): nat {
    if k.holder.Gate? && k.holder.forced then 1 else 0
  }

  /** Whether the loop may still try this figure unforced. */
  predicate HasCredit(k: Keeper) {
    k.unforced < KEEP_TRIES + k.forced + Coming(k)
  }

  predicate HolderOk(k: Keeper) {
    match k.holder
    case Nobody => k.loop != Inside
    case Gate(ms, tries, forced, isLoop) =>
      && ms == k.owedFor && tries == k.owedTries && k.owes && (k.diskMS != ms || k.diskUnknown)
      && (isLoop <==> k.loop == Inside) && (!isLoop ==> forced) && HasCredit(k)
    case Saving(ms, tries, _, isLoop) =>
      ms == k.owedFor && tries == k.owedTries && (isLoop <==> k.loop == Inside)
    case Wrote(ms, isLoop) =>
      ms == k.owedFor && k.diskMS == ms && !k.diskUnknown && (isLoop <==> k.loop == Inside)
    case Failed(tries, isLoop) => tries == k.owedTries && (isLoop <==> k.loop == Inside)
  }

  /** The tries counted are the attempts made, or the figure is on disk. */
  predicate TriesOk(k: Keeper) {
    var made := k.unforced + k.forced;
    if InAttempt(k) then
      && made > 0 && (!k.holder.isLoop ==> k.forced > 0)
      && (k.holder.Saving? || k.holder.Failed? ==> k.owedTries == made - 1)
    else k.owedTries == made || (k.owedTries == 0 && k.diskMS == k.owedFor && !k.diskUnknown)
  }

  /**
   No more is tried than the credit allows, and while any saving may still be asked
   for by the loop there is credit for it.
   */
  predicate CreditOk(k: Keeper) {
    && k.unforced <= KEEP_TRIES + k.forced
    && (k.owes && !(InAttempt(k) && k.holder.isLoop) ==> HasCredit(k))
    && (k.loop.Waiting? && k.loop.due.Some? ==> HasCredit(k))
    && (k.loop == Enters(false, false) ==> HasCredit(k))
    && (SetPending(k) ==> k.owedFor != k.delayMS || HasCredit(k))
  }

  /** What is not on disk is asked for, or was given up, or is just about to be looked at. */
  predicate NothingForgotten(k: Keeper) {
    && (k.owedFor == k.delayMS || SetPending(k))
    && (k.holder == Nobody && !SetPending(k) ==>
          (k.diskMS == k.delayMS && !k.diskUnknown) || Asks(k) || k.owedTries >= KEEP_TRIES)
  }

  predicate Valid(k: Keeper) {
    HolderOk(k) && TriesOk(k) && CreditOk(k) && NothingForgotten(k)
  }

  lemma LoopStepKeepsValid(k: Keeper, e: Event)
    requires Valid(k) && Enabled(k, e)
    requires e.Ticks? || e.Looks? || e.Sets? || e.SwitchesOn? || e.ComesDue?
    ensures Valid(Step(k, e))
  {
  }

  lemma BeginKeepsValid(k: Keeper, forced: bool, isLoop: bool)
    requires Valid(k) && k.holder == Nobody
    requires if isLoop then k.loop.Enters? && k.loop.forced == forced else forced
    ensures Valid(Begin(k, forced, isLoop))
  {
  }

  lemma PassKeepsValid(k: Keeper)
    requires Valid(k) && k.holder.Gate?
    ensures Valid(Pass(k))
  {
  }

  lemma SaveKeepsValid(k: Keeper, ok: bool)
    requires Valid(k) && k.holder.Saving?
    ensures Valid(Save(k, ok))
  {
  }

  lemma RecordKeepsValid(k: Keeper)
    requires Valid(k) && Enabled(k, Records)
    ensures Valid(Record(k))
  {
  }

  lemma StepKeepsValid(k: Keeper, e: Event)
    requires Valid(k) && Enabled(k, e)
    ensures Valid(Step(k, e))
  {
    hide Valid, Begin, Pass, Save, Record;
    match e
    case LoopBegins => BeginKeepsValid(k, k.loop.forced, true);
    case FlushBegins => BeginKeepsValid(k, true, false);
    case Passes => PassKeepsValid(k);
    case Saves(ok) => SaveKeepsValid(k, ok);
    case Records => RecordKeepsValid(k);
    case _ => LoopStepKeepsValid(k, e);
  }

  lemma {:induction false} RunKeepsValid(k: Keeper, events: seq<Event>)
    requires Valid(k) && Legal(k, events)
    ensures Valid(Run(k, events))
    decreases |events|
  {
    hide Valid, Step, Enabled;
    if events != [] {
      StepKeepsValid(k, events[0]);
      RunKeepsValid(Step(k, events[0]), events[1..]);
    }
  }

  // ---------- the attempts on one figure ----------

  function Count(attempts: seq<Attempt>, forced: bool): nat {
    if attempts == [] then 0
    else
      Count(attempts[..|attempts| - 1], forced) + (if attempts[|attempts| - 1].forced == forced then 1 else 0)
  }

  predicate CountsOk(k: Keeper) {
    && k.since <= |k.attempts|
    && k.unforced == Count(k.attempts[k.since..], false)
    && k.forced == Count(k.attempts[k.since..], true)
    && (forall i | k.since <= i < |k.attempts| :: k.attempts[i].figure == k.owedFor)
    && (k.holder.Gate? ==> k.holder.ms == k.owedFor)
    && (InAttempt(k) ==> k.since < |k.attempts|)
  }

  lemma CountMore(attempts: seq<Attempt>, a: Attempt, forced: bool)
    ensures Count(attempts + [a], forced) == Count(attempts, forced) + if a.forced == forced then 1 else 0
  {
    assert (attempts + [a])[..|attempts|] == attempts;
  }

  lemma PassKeepsCounts(k: Keeper)
    requires CountsOk(k) && k.holder.Gate?
    ensures CountsOk(Pass(k))
  {
    hide Owed, Count;
    var t := Pass(k);
    if t.attempts != k.attempts {
      var a := k.attempts[k.since..];
      assert t.attempts[k.since..] == a + [t.attempts[|k.attempts|]];
      CountMore(a, t.attempts[|k.attempts|], false);
      CountMore(a, t.attempts[|k.attempts|], true);
    }
  }

  lemma RecordKeepsCounts(k: Keeper)
    requires CountsOk(k) && Enabled(k, Records)
    ensures CountsOk(Record(k))
  {
    var t := Record(k);
    var a, b := k.attempts[k.since..], t.attempts[k.since..];
    assert a[..|a| - 1] == b[..|b| - 1];
  }

  lemma RestKeepsCounts(k: Keeper, e: Event)
    requires CountsOk(k) && Enabled(k, e) && !e.Passes? && !e.Records?
    ensures CountsOk(Step(k, e))
  {
    CountNone(k.attempts);
    hide Count, Owed;
  }

  lemma CountNone(attempts: seq<Attempt>)
    ensures Count(attempts[|attempts|..], false) == 0 && Count(attempts[|attempts|..], true) == 0
  {
  }

  lemma {:induction false} RunKeepsCounts(k: Keeper, events: seq<Event>)
    requires CountsOk(k) && Legal(k, events)
    ensures CountsOk(Run(k, events))
    decreases |events|
  {
    if events != [] {
      var e := events[0];
      match e {
        case Passes => PassKeepsCounts(k);
        case Records => RecordKeepsCounts(k);
        case _ => RestKeepsCounts(k, e);
      }
      hide CountsOk, Enabled, Step;
      RunKeepsCounts(Step(k, e), events[1..]);
    }
  }

  /**
   In every run, the figure now owed has had no more unforced attempts than three and
   one for each forced attempt on it; so three, if nobody forced it. Once it has had
   that many, the loop no longer asks.
   */
  lemma AFigureIsGivenUp(keepEvery: int, now: int, ms: int, isKnown: bool, events: seq<Event>)
    requires Legal(Start(keepEvery, now, ms, isKnown), events)
    ensures var k := Run(Start(keepEvery, now, ms, isKnown), events);
      && k.since <= |k.attempts|
      && (forall i | k.since <= i < |k.attempts| :: k.attempts[i].figure == k.owedFor)
      && var tried, forced := Count(k.attempts[k.since..], false), Count(k.attempts[k.since..], true);
      && tried <= KEEP_TRIES + forced
      && (forced == 0 ==> tried <= KEEP_TRIES)
      && (k.holder == Nobody && tried == KEEP_TRIES + forced && !SetPending(k) ==>
            !Asks(k) && !(k.loop.Waiting? && k.loop.due.Some?) && k.loop != Enters(false, false))
  {
    var k0 := Start(keepEvery, now, ms, isKnown);
    assert k0.attempts[0..] == [];
    RunKeepsCounts(k0, events);
    RunKeepsValid(k0, events);
    hide Run, Legal, Count;
  }

  /**
   In every run, whatever the loop has yet to look at aside: what is held is on disk,
   or a save of it is asked for, or it was given up. And a save that succeeds, with
   no delay set since it began, leaves on disk what is held.
   */
  lemma NoDelayIsForgotten(keepEvery: int, now: int, ms: int, isKnown: bool, events: seq<Event>)
    requires Legal(Start(keepEvery, now, ms, isKnown), events)
    requires !SetPending(Run(Start(keepEvery, now, ms, isKnown), events))
    ensures var k := Run(Start(keepEvery, now, ms, isKnown), events);
      && (k.holder == Nobody ==>
            (k.diskMS == k.delayMS && !k.diskUnknown) || Asks(k) || k.owedTries >= KEEP_TRIES)
      && (k.holder.Wrote? ==> k.attempts != [])
      && (k.holder.Wrote? ==>
            k.diskMS == k.delayMS && !k.diskUnknown
            && var t := Record(k); t.diskMS == t.delayMS && !Asks(t))
  {
    var k0 := Start(keepEvery, now, ms, isKnown);
    RunKeepsValid(k0, events);
    RunKeepsApart(k0, events);
    hide Run, Legal;
  }

  // ---------- when three are enough ----------

  /** Whether the loop has an unforced attempt at the figure before it. */
  predicate Trying(k: Keeper) {
    || (k.loop.Waiting? && k.loop.due.Some?)
    || k.loop == Enters(false, false)
    || (SetPending(k) && k.owedFor == k.delayMS)
    || (k.holder.Gate? && !k.holder.forced)
    || (k.holder == Nobody && k.owes)
  }

  /** No more than three unforced attempts, and no fourth before it. */
  predicate OnTrack(k: Keeper) {
    k.unforced <= KEEP_TRIES && (Trying(k) ==> k.unforced < KEEP_TRIES)
  }

  /**
   The one step that leads to a fourth attempt is a look of the loop at a figure
   given up, and it finds that asked for only while a flush has it in hand.
   */
  lemma OnlyALookDuringAFlushAsksAgain(k: Keeper, e: Event)
    requires Valid(k) && OnTrack(k) && Enabled(k, e)
    ensures OnTrack(Step(k, e)) <==> !(e.Looks? && Asks(k) && k.unforced >= KEEP_TRIES)
    ensures e.Looks? && Asks(k) && k.unforced >= KEEP_TRIES ==> k.holder != Nobody && !k.holder.isLoop
  {
    match e
    case LoopBegins => BeginKeepsTrack(k, k.loop.forced, true);
    case FlushBegins => BeginKeepsTrack(k, true, false);
    case Passes => PassKeepsTrack(k);
    case Records => RecordKeepsTrack(k);
    case _ =>
      hide Begin, Pass, Record;
  }

  lemma BeginKeepsTrack(k: Keeper, forced: bool, isLoop: bool)
    requires Valid(k) && OnTrack(k) && k.holder == Nobody
    requires if isLoop then k.loop.Enters? && k.loop.forced == forced else forced
    ensures OnTrack(Begin(k, forced, isLoop))
  {
  }

  lemma PassKeepsTrack(k: Keeper)
    requires Valid(k) && OnTrack(k) && k.holder.Gate?
    ensures OnTrack(Pass(k))
  {
  }

  lemma RecordKeepsTrack(k: Keeper)
    requires Valid(k) && OnTrack(k) && Enabled(k, Records)
    ensures OnTrack(Record(k))
  {
  }

  // ---------- the loop and its flush ----------

  predicate FlushHolds(k: Keeper) {
    k.holder != Nobody && !k.holder.isLoop
  }

  /** The time that has passed since a flush began, other than while one is saving. */
  function Spent(k: Keeper, e: Event, began: bool, spent: nat): nat {
    if began && e.Ticks? && !FlushHolds(k) then spent + e.d else spent
  }

  /** Once a flush has begun the program goes on for less than the time between saves, as one does that ends with it. */
  predicate EndsSoonAfterAFlush(k: Keeper, events: seq<Event>, began: bool, spent: nat)
    requires Legal(k, events)
    decreases |events|
  {
    (began ==> spent < Apart(k)) &&
    (events == [] ||
     EndsSoonAfterAFlush(
       Step(k, events[0]), events[1..], began || events[0].FlushBegins?, Spent(k, events[0], began, spent)))
  }

  predicate NoFlush(events: seq<Event>) {
    forall i | 0 <= i < |events| :: !events[i].FlushBegins?
  }

  lemma {:induction false} WithoutAFlushItEndsSoon(k: Keeper, events: seq<Event>)
    requires Legal(k, events) && NoFlush(events)
    ensures EndsSoonAfterAFlush(k, events, false, 0)
    decreases |events|
  {
    hide Step, Enabled;
    if events != [] {
      assert NoFlush(events[1..]);
      WithoutAFlushItEndsSoon(Step(k, events[0]), events[1..]);
    }
  }

  /** Off the track only while a flush saves, or too soon after it for the loop to try. */
  predicate Held(k: Keeper, began: bool, spent: nat) {
    && k.unforced <= KEEP_TRIES && (FlushHolds(k) ==> began)
    && (FlushHolds(k) && k.holder.Gate? ==> k.holder.forced)
    && (OnTrack(k) || FlushHolds(k) || (began && k.wroteAt.Some? && k.now - k.wroteAt.value <= spent))
  }

  lemma OffTrackStaysHeld(k: Keeper, e: Event, began: bool, spent: nat)
    requires Valid(k) && Enabled(k, e) && Held(k, began, spent) && !OnTrack(k) && (began ==> spent < Apart(k))
    ensures Held(Step(k, e), began || e.FlushBegins?, Spent(k, e, began, spent))
  {
    hide OnTrack;
    match e
    case FlushBegins =>
    case LoopBegins =>
    case Passes =>
    case Records =>
    case _ =>
  }

  lemma OnTrackStaysHeld(k: Keeper, e: Event, began: bool, spent: nat)
    requires Valid(k) && Enabled(k, e) && Held(k, began, spent) && OnTrack(k)
    ensures Held(Step(k, e), began || e.FlushBegins?, Spent(k, e, began, spent))
  {
    OnlyALookDuringAFlushAsksAgain(k, e);
    FlushesForce(k, e);
    hide Valid, Trying, Begin, Pass, Record, Save;
    if e.Looks? && Asks(k) && k.unforced >= KEEP_TRIES {
      assert FlushHolds(Step(k, e));
    }
  }

  /** A flush forces its save, and holds the lock from its start only. */
  lemma FlushesForce(k: Keeper, e: Event)
    requires Enabled(k, e)
    ensures var t := Step(k, e);
      && (FlushHolds(t) ==> FlushHolds(k) || e.FlushBegins?)
      && ((FlushHolds(k) && k.holder.Gate? ==> k.holder.forced) ==>
            (FlushHolds(t) && t.holder.Gate? ==> t.holder.forced))
  {
    hide Owed;
  }

  lemma {:induction false} HeldToTheEnd(k: Keeper, events: seq<Event>, began: bool, spent: nat)
    requires Valid(k) && Held(k, began, spent) && Legal(k, events) && EndsSoonAfterAFlush(k, events, began, spent)
    ensures Run(k, events).unforced <= KEEP_TRIES
    decreases |events|
  {
    if events != [] {
      var e := events[0];
      StepKeepsValid(k, e);
      if OnTrack(k) {
        OnTrackStaysHeld(k, e, began, spent);
      } else {
        OffTrackStaysHeld(k, e, began, spent);
      }
      hide Valid, OnTrack, Step, Enabled;
      HeldToTheEnd(Step(k, e), events[1..], began || e.FlushBegins?, Spent(k, e, began, spent));
    }
  }

  /**
   In every run that has no flush, or ends before the time between saves has passed
   since one, as the program does, which exits with its flush: no figure gets a
   fourth unforced attempt.
   */
  lemma ThreeTriesAtMost(keepEvery: int, now: int, ms: int, isKnown: bool, events: seq<Event>)
    requires Legal(Start(keepEvery, now, ms, isKnown), events)
    requires NoFlush(events) || EndsSoonAfterAFlush(Start(keepEvery, now, ms, isKnown), events, false, 0)
    ensures var k := Run(Start(keepEvery, now, ms, isKnown), events);
      k.since <= |k.attempts| && Count(k.attempts[k.since..], false) <= KEEP_TRIES
  {
    var k0 := Start(keepEvery, now, ms, isKnown);
    assert k0.attempts[0..] == [];
    RunKeepsCounts(k0, events);
    if NoFlush(events) {
      WithoutAFlushItEndsSoon(k0, events);
    }
    HeldToTheEnd(k0, events, false, 0);
  }

  // ---------- when there is a fourth attempt ----------

  predicate NoLooks(events: seq<Event>) {
    forall i | 0 <= i < |events| :: !events[i].Looks?
  }

  /** No new order for the loop, and no save that worked. */
  predicate Disturbs(e: Event) {
    e.Sets? || e.SwitchesOn? || e == Saves(true)
  }

  predicate Undisturbed(events: seq<Event>) {
    forall i | 0 <= i < |events| :: !Disturbs(events[i])
  }

  /** The loop has been to its gate, or turned back before it, and has yet to look again. */
  predicate IsBack(k: Keeper) {
    k.loop == Top || (k.loop == Inside && !(k.holder.Gate? && k.holder.isLoop))
  }

  /** On the way from a look, which found a save asked for or not, to an unforced attempt on the same figure. */
  predicate OnItsWay(k: Keeper, asked: bool, tried: nat) {
    && k.unforced == tried && k.owedFor == k.delayMS
    && (|| (k.loop.Waiting? && k.loop.due.Some? == asked)
        || (asked && k.loop == Enters(false, false))
        || (asked && k.holder.Gate? && k.holder.isLoop && !k.holder.forced && k.loop == Inside))
  }

  /** Turned to a new figure, to a forced attempt, or to a figure that is on disk. */
  predicate Diverted(k: Keeper) {
    || (k.loop.Enters? && k.loop.forced)
    || (k.loop == Enters(false, true) && (k.owedFor != k.delayMS || k.unforced == 0))
    || (k.holder.Gate? && k.holder.isLoop && k.loop == Inside && (k.holder.forced || k.unforced == 0))
    || ((k.loop.Waiting? || k.loop == Enters(false, false))
        && k.diskMS == k.owedFor == k.delayMS && !k.diskUnknown)
  }

  predicate FromALook(k: Keeper, quiet: bool, asked: bool, tried: nat) {
    IsBack(k) || if quiet then OnItsWay(k, asked, tried) else Diverted(k)
  }

  lemma StepFromALook(k: Keeper, e: Event, quiet: bool, asked: bool, tried: nat)
    requires Valid(k) && Enabled(k, e) && !e.Looks? && FromALook(k, quiet, asked, tried)
    ensures FromALook(Step(k, e), quiet && !Disturbs(e), asked, tried)
  {
    hide Owed;
  }

  lemma {:induction false} RunFromALook(k: Keeper, mid: seq<Event>, quiet: bool, asked: bool, tried: nat)
    requires Valid(k) && FromALook(k, quiet, asked, tried) && Legal(k, mid) && NoLooks(mid)
    ensures Valid(Run(k, mid)) && FromALook(Run(k, mid), quiet && Undisturbed(mid), asked, tried)
    decreases |mid|
  {
    hide Valid, FromALook, Step, Enabled, Disturbs;
    if mid != [] {
      var e, later := mid[0], mid[1..];
      StepKeepsValid(k, e);
      StepFromALook(k, e, quiet, asked, tried);
      assert NoLooks(later);
      RunFromALook(Step(k, e), later, quiet && !Disturbs(e), asked, tried);
      assert Undisturbed(mid) <==> !Disturbs(e) && Undisturbed(later);
    }
  }

  /** A step makes a fourth unforced attempt exactly when it passes an unforced gate, late enough, after three. */
  lemma TheFourthAttempt(k: Keeper, e: Event)
    requires Valid(k) && Enabled(k, e) && k.unforced <= KEEP_TRIES
    ensures Step(k, e).unforced > KEEP_TRIES <==>
            e.Passes? && !k.holder.forced && Owed(k) == Some(0) && k.unforced == KEEP_TRIES
  {
  }

  /**
   The loop looks, and comes to its gate without looking again. Then it is about to
   try unforced a figure tried three times exactly when it had been tried three times
   at the look, the look found a save of it asked for all the same, and nothing came
   between: no new delay, no switching on, and no save, of a flush, that worked.
   */
  lemma TheWayToAFourthAttempt(k: Keeper, mid: seq<Event>)
    requires Valid(k) && k.loop == Top && Legal(Look(k), mid) && NoLooks(mid)
    requires var t := Run(Look(k), mid); t.holder.Gate? && t.holder.isLoop
    ensures var t := Run(Look(k), mid);
      !t.holder.forced && t.unforced == KEEP_TRIES <==>
      k.unforced == KEEP_TRIES && Asks(k) && Undisturbed(mid)
  {
    LoopStepKeepsValid(k, Looks);
    RunFromALook(Look(k), mid, true, Asks(k), k.unforced);
    hide Run, Legal, Undisturbed, NoLooks;
  }

  lemma {:induction false} RunSplits(k: Keeper, a: seq<Event>, b: seq<Event>)
    requires Legal(k, a + b)
    ensures Legal(k, a) && Legal(Run(k, a), b) && Run(k, a + b) == Run(Run(k, a), b)
    decreases |a|
  {
    hide Step, Enabled;
    if a == [] {
      assert a + b == b;
    } else {
      assert (a + b)[1..] == a[1..] + b;
      RunSplits(Step(k, a[0]), a[1..], b);
    }
  }

  /** Where the loop looked last, if it is past a look. */
  lemma {:induction false} LastLook(k: Keeper, events: seq<Event>) returns (pre: seq<Event>, mid: seq<Event>)
    requires Valid(k) && k.loop == Top && Legal(k, events)
    requires Run(k, events).holder.Gate? && Run(k, events).holder.isLoop
    ensures events == pre + [Looks] + mid && NoLooks(mid)
    ensures Legal(k, pre) && Run(k, pre).loop == Top && Valid(Run(k, pre))
    ensures Legal(Look(Run(k, pre)), mid) && Run(Look(Run(k, pre)), mid) == Run(k, events)
  {
    var n := |events|;
    while n > 0 && !events[n - 1].Looks?
      invariant 0 <= n <= |events| && NoLooks(events[n..])
    {
      n := n - 1;
    }
    if n == 0 {
      assert events[0..] == events;
      WithoutALookItStaysAtTheTop(k, events);
      assert false;
    } else {
      pre, mid := events[..n - 1], events[n..];
      assert events == pre + ([Looks] + mid) && pre + [Looks] + mid == pre + ([Looks] + mid);
      RunSplits(k, pre, [Looks] + mid);
      assert ([Looks] + mid)[0] == Looks && ([Looks] + mid)[1..] == mid;
      RunKeepsValid(k, pre);
    }
  }

  lemma {:induction false} WithoutALookItStaysAtTheTop(k: Keeper, events: seq<Event>)
    requires Valid(k) && k.loop == Top && Legal(k, events) && NoLooks(events)
    ensures Run(k, events).loop == Top && Valid(Run(k, events))
    decreases |events|
  {
    if events != [] {
      StepKeepsValid(k, events[0]);
      assert Step(k, events[0]).loop == Top by { ATopStaysATop(k, events[0]); }
      hide Valid, Step, Enabled;
      assert NoLooks(events[1..]);
      WithoutALookItStaysAtTheTop(Step(k, events[0]), events[1..]);
    }
  }

  lemma ATopStaysATop(k: Keeper, e: Event)
    requires Valid(k) && Enabled(k, e) && k.loop == Top && !e.Looks?
    ensures Step(k, e).loop == Top
  {
    hide Owed;
  }

  /** The loop's last look before this, and what became of it. */
  ghost predicate LookedInVain(k0: Keeper, events: seq<Event>, pre: seq<Event>, mid: seq<Event>) {
    && events == pre + [Looks] + mid && NoLooks(mid) && Undisturbed(mid)
    && Legal(k0, pre) && var k := Run(k0, pre); k.unforced == KEEP_TRIES && Asks(k)
  }

  /**
   In every run: the next step is a fourth unforced attempt on a figure if and only if
   it passes the gate of the loop late enough, and the loop's last look found, with
   three tries made, a save still asked for, which then neither worked nor was
   overtaken by an order. A look finds that, in a run with no fourth attempt before
   it, only while a flush has the figure in hand: so the switch would have to outlive
   its flush.
   */
  lemma EveryFourthAttempt(keepEvery: int, now: int, ms: int, isKnown: bool, events: seq<Event>)
    requires Legal(Start(keepEvery, now, ms, isKnown), events)
    requires var t := Run(Start(keepEvery, now, ms, isKnown), events); t.holder.Gate? && t.unforced <= KEEP_TRIES
    ensures var k0 := Start(keepEvery, now, ms, isKnown);
      var t := Run(k0, events);
      Step(t, Passes).unforced > KEEP_TRIES <==>
      && t.holder.isLoop && Owed(t) == Some(0)
      && exists pre, mid :: LookedInVain(k0, events, pre, mid)
  {
    var k0 := Start(keepEvery, now, ms, isKnown);
    var t := Run(k0, events);
    RunKeepsValid(k0, events);
    TheFourthAttempt(t, Passes);
    assert t.holder.isLoop || t.holder.forced;
    if t.holder.isLoop {
      var pre, mid := LastLook(k0, events);
      TheWayToAFourthAttempt(Run(k0, pre), mid);
      if !t.holder.forced && t.unforced == KEEP_TRIES {
        assert LookedInVain(k0, events, pre, mid);
      }
      forall a, b | LookedInVain(k0, events, a, b) ensures a == pre && b == mid {
        TheLastLookIsOne(a, b, pre, mid);
      }
      hide Run, Legal, Valid, Step;
    }
  }

  lemma NoLookAfter(a: seq<Event>, b: seq<Event>)
    requires NoLooks(b)
    ensures var all := a + [Looks] + b;
      all[|a|] == Looks && forall i | |a| < i < |all| :: all[i] != Looks
  {
    var all := a + [Looks] + b;
    forall i | |a| < i < |all| ensures all[i] != Looks {
      assert all[i] == b[i - |a| - 1];
    }
  }

  lemma TheLastLookIsOne(a: seq<Event>, b: seq<Event>, pre: seq<Event>, mid: seq<Event>)
    requires a + [Looks] + b == pre + [Looks] + mid && NoLooks(b) && NoLooks(mid)
    ensures a == pre && b == mid
  {
    var all := a + [Looks] + b;
    NoLookAfter(a, b);
    NoLookAfter(pre, mid);
    assert a == all[..|a|] && pre == all[..|pre|] && b == all[|a| + 1..] && mid == all[|pre| + 1..];
  }

  // ---------- one attempt too many ----------

  ghost predicate Reaches(k0: Keeper, k: Keeper) {
    exists events :: Legal(k0, events) && Run(k0, events) == k
  }

  lemma {:induction false} RunOn(k0: Keeper, events: seq<Event>, e: Event)
    requires Legal(k0, events) && Enabled(Run(k0, events), e)
    ensures Legal(k0, events + [e]) && Run(k0, events + [e]) == Step(Run(k0, events), e)
    decreases |events|
  {
    hide Step, Enabled;
    if events == [] {
      assert events + [e] == [e] && [e][1..] == [];
      assert Legal(Step(k0, e), []) && Run(Step(k0, e), []) == Step(k0, e);
    } else {
      assert (events + [e])[1..] == events[1..] + [e];
      RunOn(Step(k0, events[0]), events[1..], e);
    }
  }

  lemma Then(k0: Keeper, k: Keeper, e: Event) returns (t: Keeper)
    requires Reaches(k0, k) && Enabled(k, e)
    ensures t == Step(k, e) && Reaches(k0, t)
  {
    t := Step(k, e);
    var events :| Legal(k0, events) && Run(k0, events) == k;
    RunOn(k0, events, e);
  }

  /** One failed try of the loop, from the moment it means to. */
  lemma ATryFails(k0: Keeper, k: Keeper) returns (t: Keeper)
    requires Reaches(k0, k) && k.loop == Enters(false, k.loop.Enters? && k.loop.bySet) && k.holder == Nobody
    requires k.delayMS != k.diskMS
    requires k.owedFor == k.delayMS || k.loop.bySet
    requires k.wroteAt.None? || k.now - k.wroteAt.value >= Apart(k)
    requires k.owedFor != k.delayMS ==> k.owedTries == 0 && k.unforced == 0 && k.forced == 0
    ensures Reaches(k0, t) && t.loop == Top && t.holder == Nobody && t.wroteAt == Some(t.now) && t.now == k.now
    ensures t.keepEvery == k.keepEvery && t.delayMS == k.delayMS == t.owedFor && t.diskMS == k.diskMS
    ensures t.owedTries == k.owedTries + 1 && t.owes == (k.owedTries + 1 < KEEP_TRIES)
    ensures t.unforced == k.unforced + 1 && t.forced == k.forced
  {
    t := Then(k0, k, LoopBegins);
    t := Then(k0, t, Passes);
    t := Then(k0, t, Saves(false));
    t := Then(k0, t, Records);
  }

  /** The loop looks, waits as long as it should, and means to try again. */
  lemma TimeComes(k0: Keeper, k: Keeper) returns (t: Keeper)
    requires Reaches(k0, k) && k.loop == Top && k.owes && k.wroteAt.Some? && k.now == k.wroteAt.value
    ensures Reaches(k0, t) && t == k.(loop := Enters(false, false), now := k.now + Apart(k))
  {
    t := Then(k0, k, Looks);
    t := Then(k0, t, Ticks(Apart(k)));
    t := Then(k0, t, ComesDue);
  }

  /** A flush that fails while the loop looks on buys the loop a fourth try. */
  lemma AFailedFlushBuysAnotherTry()
    ensures exists k :: Reaches(Start(0, 0, 0, true), k) && k.unforced == KEEP_TRIES + 1 && k.forced == 1
  {
    var k0 := Start(0, 0, 0, true);
    assert Legal(k0, []) && Run(k0, []) == k0;
    var k := Then(k0, k0, Looks);
    k := Then(k0, k, Sets(100));
    k := ATryFails(k0, k);
    k := TimeComes(k0, k);
    k := ATryFails(k0, k);
    k := TimeComes(k0, k);
    k := ATryFails(k0, k);
    k := AFlushFailsUnderAnArmedLoop(k0, k);
    k := ATryFails(k0, k);
  }

  lemma AFlushFailsUnderAnArmedLoop(k0: Keeper, k: Keeper) returns (t: Keeper)
    requires Reaches(k0, k) && k.loop == Top && k.holder == Nobody && !k.owes
    requires k.owedTries == KEEP_TRIES
    requires k.wroteAt.Some? && k.now == k.wroteAt.value && k.owedFor == k.delayMS == 100 && k.diskMS != 100
    ensures Reaches(k0, t) && t.loop == Enters(false, false) && t.holder == Nobody
    ensures t.delayMS == t.owedFor == 100 && t.diskMS == k.diskMS && t.keepEvery == k.keepEvery
    ensures t.wroteAt == Some(k.now) && t.now == k.now + Apart(k)
    ensures t.unforced == k.unforced && t.forced == k.forced + 1
  {
    t := Then(k0, k, Looks);
    t := Then(k0, t, FlushBegins);
    t := Then(k0, t, Passes);
    t := Then(k0, t, Sets(100));
    t := Then(k0, t, Looks);
    t := Then(k0, t, Saves(false));
    t := Then(k0, t, Records);
    t := Then(k0, t, Ticks(Apart(k)));
    t := Then(k0, t, ComesDue);
  }
}
