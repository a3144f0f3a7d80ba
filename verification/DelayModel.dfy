/**
 Keeping the output delay on disk (serve.go:519-667), while sendspin is off and no
 client keeps it instead. The loop and any number of flushes save under the lock
 `writing`; each stretch of code under `mu` is one step, and time passes between steps.
 */
module DelayModel {
  import opened Wrappers

  const KEEP_APART := 60_000_000_000
  const KEEP_TRIES := 3
  const MAX_STATIC_DELAY_MS := 5000

  /** Where the loop of `run` is; `bySet` if a new delay sent it to `keepOwed`. */
  datatype Loop = Top | Waiting(due: Option<int>) | Enters(forced: bool, bySet: bool) | Inside

  /** Whoever holds `writing`: the loop or a flush, and how far it has come. */
  datatype Holder =
    | Nobody
    | Gate(ms: int, tries: nat, forced: bool, isLoop: bool)
    | Saving(ms: int, tries: nat, forced: bool, isLoop: bool)
    | Wrote(ms: int, isLoop: bool)
    | Failed(tries: nat, isLoop: bool)

  /** A save that was begun, and when it was recorded. */
  datatype Attempt = Attempt(figure: int, forced: bool, start: int, end: Option<int>)

  /**
   The attempts from `since` on are those made since the figure now owed took over;
   `unforced` and `forced` count them.
   */
  datatype Keeper = Keeper(
    keepEvery: int, now: int,
    delayMS: int, diskMS: int, diskUnknown: bool, owes: bool, owedFor: int, owedTries: nat,
    wroteAt: Option<int>, loop: Loop, holder: Holder,
    attempts: seq<Attempt>, since: nat, unforced: nat, forced: nat)

  /** The daemon starts with what it found on disk, if it found anything. */
  function Start(keepEvery: int, now: int, ms: int, isKnown: bool): Keeper {
    Keeper(keepEvery, now, ms, ms, !isKnown, false, ms, 0, None, Top, Nobody, [], 0, 0, 0)
  }

  function HoldDelayMS(ms: int): int {
    if ms < 0 then 0 else if ms > MAX_STATIC_DELAY_MS then MAX_STATIC_DELAY_MS else ms
  }

  function Apart(k: Keeper): (a: int)
    ensures a > 0
  {
    if k.keepEvery <= 0 then KEEP_APART else k.keepEvery
  }

  /** Whether a save is asked for. */
  predicate Asks(k: Keeper) {
    k.owes || (k.diskUnknown && k.owedTries < KEEP_TRIES)
  }

  /** `owed`: how long until a save that is asked for, or nothing. */
  function Owed(k: Keeper): Option<int> {
    if !Asks(k) then None
    else if k.wroteAt.Some? && Apart(k) - (k.now - k.wroteAt.value) > 0
    then Some(Apart(k) - (k.now - k.wroteAt.value))
    else Some(0)
  }

  function Released(k: Keeper): Keeper
    requires k.holder != Nobody
  {
    k.(holder := Nobody, loop := if k.holder.isLoop then Top else k.loop)
  }

  /** The loop looks whether anything is owed, and waits for that or for orders. */
  function Look(k: Keeper): Keeper {
    k.(loop := Waiting(if Owed(k).Some? then Some(k.now + Owed(k).value) else None))
  }

  /** `applyDelay`. */
  function Set(k: Keeper, ms: int): Keeper {
    if k.delayMS == HoldDelayMS(ms) then k.(loop := Top)
    else k.(delayMS := HoldDelayMS(ms), loop := Enters(false, true))
  }

  function Anew(k: Keeper, ms: int): Keeper {
    k.(owedFor := ms, owedTries := 0, since := |k.attempts|, unforced := 0, forced := 0)
  }

  /** `keepOwed` up to its first unlock. */
  function Begin(k: Keeper, forced: bool, isLoop: bool): Keeper {
    var t := k.(loop := if isLoop then Inside else k.loop);
    var ms := t.delayMS;
    var u := if ms != t.owedFor then Anew(t, ms) else t;
    var v := u.(owes := ms != u.diskMS || u.diskUnknown, holder := Gate(ms, u.owedTries, forced, isLoop));
    if v.owes then v else Released(v)
  }

  /** It goes on to save unless it is too soon and nobody forces it. */
  function Pass(k: Keeper): Keeper
    requires k.holder.Gate?
  {
    var h := k.holder;
    if Owed(k).Some? && Owed(k).value > 0 && !h.forced then Released(k)
    else
      k.(holder := Saving(h.ms, h.tries, h.forced, h.isLoop),
         attempts := k.attempts + [Attempt(h.ms, h.forced, k.now, None)],
         unforced := if h.forced then k.unforced else k.unforced + 1,
         forced := if h.forced then k.forced + 1 else k.forced)
  }

  /** `keepDelay`, once the save has come back. */
  function Save(k: Keeper, ok: bool): Keeper
    requires k.holder.Saving?
  {
    var h := k.holder;
    if ok then k.(diskMS := h.ms, wroteAt := Some(k.now), diskUnknown := false, holder := Wrote(h.ms, h.isLoop))
    else k.(holder := Failed(h.tries, h.isLoop))
  }

  /** The rest of `keepOwed`. */
  function Record(k: Keeper): Keeper
    requires (k.holder.Wrote? || k.holder.Failed?) && k.attempts != []
  {
    var last := |k.attempts| - 1;
    var t := k.(wroteAt := Some(k.now), attempts := k.attempts[last := k.attempts[last].(end := Some(k.now))]);
    Released(
      if k.holder.Wrote? then t.(owes := false, owedTries := 0)
      else t.(owedTries := k.holder.tries + 1, owes := k.holder.tries + 1 < KEEP_TRIES))
  }

  // ---------- any order of steps ----------

  datatype Event =
    | Ticks(d: nat)
    | Looks
    | Sets(ms: int)
    | SwitchesOn
    | ComesDue
    | LoopBegins
    | FlushBegins
    | Passes
    | Saves(ok: bool)
    | Records

  predicate Enabled(k: Keeper, e: Event) {
    match e
    case Ticks(_) => true
    case Looks => k.loop == Top
    case Sets(_) => k.loop.Waiting?
    case SwitchesOn => k.loop.Waiting?
    case ComesDue => k.loop.Waiting? && k.loop.due.Some? && k.now >= k.loop.due.value
    case LoopBegins => k.loop.Enters? && k.holder == Nobody
    case FlushBegins => k.holder == Nobody
    case Passes => k.holder.Gate?
    case Saves(_) => k.holder.Saving?
    case Records => (k.holder.Wrote? || k.holder.Failed?) && k.attempts != []
  }

  function Step(k: Keeper, e: Event): Keeper
    requires Enabled(k, e)
  {
    match e
    case Ticks(d) => k.(now := k.now + d)
    case Looks => Look(k)
    case Sets(ms) => Set(k, ms)
    case SwitchesOn => k.(loop := Enters(true, false))
    case ComesDue => k.(loop := Enters(false, false))
    case LoopBegins => Begin(k, k.loop.forced, true)
    case FlushBegins => Begin(k, true, false)
    case Passes => Pass(k)
    case Saves(ok) => Save(k, ok)
    case Records => Record(k)
  }

  predicate Legal(k: Keeper, events: seq<Event>)
    decreases |events|
  {
    events == [] || (Enabled(k, events[0]) && Legal(Step(k, events[0]), events[1..]))
  }

  function Run(k: Keeper, events: seq<Event>): Keeper
    requires Legal(k, events)
    decreases |events|
  {
    if events == [] then k else Run(Step(k, events[0]), events[1..])
  }
}
