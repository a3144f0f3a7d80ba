/**
 Who is connected, what each connection is sent, and what the cache keeps of it: every
 step under the server's lock, connection by connection (internal/esphome/server.go,
 state.go, media.go).
 */
module PublishedConns {
  import opened PublishedModel
  import opened PublishedNews
  import opened PublishedProofs

  // ---------- what a step sees ----------

  /** Readings are of distinct entities, and floats have 32 bits. */
  predicate WellFormed(s: Server, e: Event) {
    && (forall k | k in s.published :: InBits(s.published[k].value))
    && (e.Publishes? ==> Distinct(e.readings) && forall i | 0 <= i < |e.readings| :: InBits(e.readings[i].value))
  }

  /** There is no room for so many frames; a queue nothing is known of has none. */
  predicate Short(rooms: map<nat, nat>, c: nat, frames: nat) {
    frames > 0 && (c in rooms ==> rooms[c] < frames)
  }

  // ---------- who is connected ----------

  predicate IsDropped(s: Server, e: Event, c: nat)
    requires c in s.known
  {
    match e
    case Leaves(d) => d == c
    case UsesCommand(given) => given && !s.command
    case UsesPlay(given) => given && !s.plays
    case Publishes(rs, rooms) => s.known[c].states && Short(rooms, c, |News(s.published, rs)|)
    case FiresPress(rooms, later) =>
      (s.known[c].states && Short(rooms, c, 1)) || (s.known[c].services && Short(later, c, 1))
    case _ => false
  }

  lemma WhoIsLeftAfterARound(s: Server, a: Audience, frames: seq<Frame>, room: map<nat, nat>, c: nat)
    requires forall d | d in s.conns :: d in s.known
    ensures c in EachConn(s, a, frames, room).conns <==>
              c in s.conns && !(Wants(s.known[c], a) && Short(room, c, |frames|))
  {
  }

  lemma WhoIsLeftAfterAPress(s: Server, room: map<nat, nat>, later: map<nat, nat>, c: nat)
    requires Coherent(s)
    ensures c in FirePress(s, room, later).conns <==> c in s.conns && !IsDropped(s, FiresPress(room, later), c)
  {
    hide EachConn, Short;
    var frames, t := [Other(MSG_EVENT_STATE)], EachConn(s, States, [Other(MSG_EVENT_STATE)], room);
    ARoundOfOthersKeepsCoherent(s, States, MSG_EVENT_STATE, room);
    WhoIsLeftAfterARound(s, States, frames, room, c);
    WhoIsLeftAfterARound(t, Services, [Other(MSG_HOMEASSISTANT_ACT)], later, c);
    if c in s.known {
      ARoundLeavesTheServices(s, frames, room, c);
    }
  }

  lemma ARoundLeavesTheServices(s: Server, frames: seq<Frame>, room: map<nat, nat>, c: nat)
    requires c in s.known
    ensures c in EachConn(s, States, frames, room).known
    ensures EachConn(s, States, frames, room).known[c].services == s.known[c].services
  {
  }

  /**
   A connection is admitted while there are fewer than eight, and stays until it leaves,
   cannot take what it has asked for, or everyone is made to list again.
   */
  lemma WhoIsConnected(s: Server, e: Event, c: nat)
    requires Coherent(s) && Enabled(s, e) && WellFormed(s, e)
    ensures c in Step(s, e).conns <==>
              (c in s.conns && !IsDropped(s, e, c)) || (e == Connects(c) && |s.conns| < 8)
  {
    hide Absorb, EncodeAll, News, Cached, Agrees, EachConn, Short;
    match e
    case Publishes(rs, rooms) =>
      WhatIsAbsorbed(s.published, rs);
      var (p, changed) := Absorb(s.published, rs);
      EncodeAllPrefix(changed, 0);
      WhoIsLeftAfterARound(s.(published := p), States, EncodeAll(changed), rooms, c);
      NothingIsNeverShort(rooms, c);
    case FiresPress(rooms, later) => WhoIsLeftAfterAPress(s, rooms, later, c);
    case _ =>
  }

  lemma NothingIsNeverShort(rooms: map<nat, nat>, c: nat)
    ensures !Short(rooms, c, 0)
  {
  }

  // ---------- what it is sent ----------

  function Least(a: nat, b: nat): nat {
    if a < b then a else b
  }

  /** What is queued for a connection that is not dropped. */
  function Hears(s: Server, e: Event, c: nat): seq<Frame>
    requires c in s.known
  {
    var conn := s.known[c];
    match e
    case Publishes(rs, _) => if conn.states then EncodeAll(News(s.published, rs)) else []
    case FiresPress(_, _) => (if conn.states then [Other(108)] else []) + if conn.services then [Other(35)] else []
    case Subscribes(d, snapshot, room) => if d == c then EncodeAll(snapshot[..Least(room, |snapshot|)]) else []
    case SendsOther(d, msgType) => if d == c then [Other(msgType)] else []
    case _ => []
  }

  predicate IsAnswer(s: Server, e: Event, c: nat, after: Conn)
    requires c in s.known
  {
    && after.log == s.known[c].log + Hears(s, e, c)
    && (after.states <==> s.known[c].states || (e.Subscribes? && e.c == c))
    && (after.services <==> s.known[c].services || e == SubscribesServices(c))
    && (after.accepted <==> s.known[c].accepted || (e.Subscribes? && e.c == c && e.room >= |e.snapshot|))
  }

  lemma APressIsHeard(s: Server, room: map<nat, nat>, later: map<nat, nat>, c: nat)
    requires Coherent(s) && c in FirePress(s, room, later).conns
    ensures c in FirePress(s, room, later).known && c in s.known
    ensures IsAnswer(s, FiresPress(room, later), c, FirePress(s, room, later).known[c])
  {
    hide EachConn;
    var frames, t := [Other(MSG_EVENT_STATE)], EachConn(s, States, [Other(MSG_EVENT_STATE)], room);
    ARoundOfOthersKeepsCoherent(s, States, MSG_EVENT_STATE, room);
    EachConnSendsOrDrops(s, States, frames, room, c);
    EachConnSendsOrDrops(t, Services, [Other(MSG_HOMEASSISTANT_ACT)], later, c);
    ARoundLeavesTheServices(s, frames, room, c);
    ARoundKeepsTheServices(t, [Other(MSG_HOMEASSISTANT_ACT)], later, c);
  }

  lemma ARoundKeepsTheServices(s: Server, frames: seq<Frame>, room: map<nat, nat>, c: nat)
    requires c in s.known
    ensures c in EachConn(s, Services, frames, room).known
    ensures EachConn(s, Services, frames, room).known[c].services == s.known[c].services
  {
  }

  lemma NewsAreHeard(s: Server, rs: seq<Reading>, rooms: map<nat, nat>, c: nat)
    requires Coherent(s) && WellFormed(s, Publishes(rs, rooms)) && c in Publish(s, rs, rooms).conns
    ensures c in Publish(s, rs, rooms).known && c in s.known
    ensures IsAnswer(s, Publishes(rs, rooms), c, Publish(s, rs, rooms).known[c])
  {
    hide Absorb, EncodeAll, News, Cached, Agrees, EachConn;
    WhatIsAbsorbed(s.published, rs);
    OnlyChangesAreSent(s, rs, rooms, c);
    var (p, changed) := Absorb(s.published, rs);
    EachConnSendsOrDrops(s.(published := p), States, EncodeAll(changed), rooms, c);
    ARoundLeavesTheServices(s.(published := p), EncodeAll(changed), rooms, c);
  }

  lemma SubscribingConnectsNobody(s: Server, c: nat, snapshot: seq<Reading>, room: nat)
    requires c in s.known
    ensures Subscribe(s, c, snapshot, room).conns == s.conns
  {
    hide EncodeAll;
  }

  lemma ASnapshotIsHeard(s: Server, c: nat, snapshot: seq<Reading>, room: nat, d: nat)
    requires Coherent(s) && c in s.known && d in s.conns
    ensures d in Subscribe(s, c, snapshot, room).known
    ensures IsAnswer(s, Subscribes(c, snapshot, room), d, Subscribe(s, c, snapshot, room).known[d])
  {
    hide EncodeAll, Agrees;
    EncodeAllPrefix(snapshot, Least(room, |snapshot|));
    assert snapshot[..|snapshot|] == snapshot;
  }

  /** A step that is heard by one connection at most, and of which nobody else knows. */
  lemma OneAnswer(s: Server, e: Event, c: nat, d: nat, after: Conn)
    requires c in s.known && (c == d ==> IsAnswer(s, e, c, after))
    requires c != d ==> IsAnswer(s, e, c, s.known[c])
    ensures IsAnswer(s, e, c, s.known[d := after][c])
  {
    hide IsAnswer;
  }

  lemma ServicesAreHeard(s: Server, c: nat, d: nat)
    requires c in s.known && d in s.known
    ensures c in Step(s, SubscribesServices(d)).known
    ensures IsAnswer(s, SubscribesServices(d), c, Step(s, SubscribesServices(d)).known[c])
  {
    OneAnswer(s, SubscribesServices(d), c, d, s.known[d].(services := true));
    hide IsAnswer;
  }

  lemma OthersAreHeard(s: Server, c: nat, d: nat, msgType: nat)
    requires c in s.known && d in s.known
    ensures c in Step(s, SendsOther(d, msgType)).known
    ensures IsAnswer(s, SendsOther(d, msgType), c, Step(s, SendsOther(d, msgType)).known[c])
  {
    OneAnswer(s, SendsOther(d, msgType), c, d, Send(s.known[d], [Other(msgType)], 1).0);
    hide IsAnswer;
  }

  lemma NothingIsHeard(s: Server, e: Event, c: nat)
    requires e.Connects? || e.ForgetsSound? || e.UsesCommand? || e.UsesPlay? || e.Leaves?
    ensures c in s.known ==> IsAnswer(s, e, c, s.known[c])
  {
  }

  lemma SayingConnectsNobody(s: Server, d: nat, msgType: nat)
    requires d in s.known
    ensures SendOther(s, d, msgType).conns == s.conns
  {
    hide Send;
  }

  lemma OtherStepsAreHeard(s: Server, e: Event, c: nat)
    requires Coherent(s) && Enabled(s, e) && c in Step(s, e).conns
    requires !e.Publishes? && !e.FiresPress? && !e.Subscribes?
    ensures c in Step(s, e).known
    ensures e == Connects(c) ==> Step(s, e).known[c] == Conn(false, false, false, [])
    ensures e != Connects(c) ==> c in s.known && IsAnswer(s, e, c, Step(s, e).known[c])
  {
    assert c in s.conns ==> c in s.known;
    hide Coherent, Publish, FirePress, Subscribe, SendOther, IsSnapshot, IsAnswer, Hears;
    match e
    case SubscribesServices(d) => ServicesAreHeard(s, c, d);
    case SendsOther(d, msgType) =>
      assert SendOther(s, d, msgType).conns == s.conns by { SayingConnectsNobody(s, d, msgType); }
      OthersAreHeard(s, c, d, msgType);
    case _ => NothingIsHeard(s, e, c);
  }

  /** A connection that stays is sent what it has asked for, and nothing else; a new one has asked for nothing. */
  lemma WhatAConnectionIsSent(s: Server, e: Event, c: nat)
    requires Coherent(s) && Enabled(s, e) && WellFormed(s, e) && c in Step(s, e).conns
    ensures c in Step(s, e).known
    ensures e == Connects(c) ==> Step(s, e).known[c] == Conn(false, false, false, [])
    ensures e != Connects(c) ==> c in s.known && IsAnswer(s, e, c, Step(s, e).known[c])
  {
    hide IsAnswer, Agrees, Publish, FirePress, Subscribe;
    match e
    case Publishes(rs, rooms) => NewsAreHeard(s, rs, rooms, c);
    case FiresPress(rooms, later) => APressIsHeard(s, rooms, later, c);
    case Subscribes(d, snapshot, room) =>
      SubscribingConnectsNobody(s, d, snapshot, room);
      ASnapshotIsHeard(s, d, snapshot, room, c);
    case _ => OtherStepsAreHeard(s, e, c);
  }

  function KeysOf(rs: seq<Reading>): set<nat> {
    set i | 0 <= i < |rs| :: rs[i].key
  }

  lemma {:induction false} AsManyAsKeys(rs: seq<Reading>)
    requires Distinct(rs)
    ensures |rs| == |KeysOf(rs)|
    decreases |rs|
  {
    if rs != [] {
      var less, last := rs[..|rs| - 1], rs[|rs| - 1].key;
      AsManyAsKeys(less);
      assert KeysOf(rs) == KeysOf(less) + {last} by {
        forall k | k in KeysOf(rs) ensures k in KeysOf(less) + {last} {
          var i :| 0 <= i < |rs| && rs[i].key == k;
          assert i < |less| ==> less[i].key == k;
        }
        assert forall i | 0 <= i < |less| :: less[i] == rs[i];
      }
      assert last !in KeysOf(less);
    }
  }

  /** A snapshot has each of the cache's readings, once. */
  lemma ASnapshotHasEachReadingOnce(published: map<nat, Reading>, rs: seq<Reading>)
    requires IsSnapshot(published, rs) && WellKeyed(published)
    ensures Distinct(rs) && |rs| == |published|
    ensures forall k | k in published :: published[k] in rs
    ensures forall r | r in rs :: r.key in published && published[r.key] == r
  {
    AsManyAsKeys(rs);
    assert KeysOf(rs) == published.Keys by {
      forall k | k in published ensures k in KeysOf(rs) {
        var i :| 0 <= i < |rs| && rs[i].key == k;
      }
    }
    forall k | k in published ensures published[k] in rs {
      var i :| 0 <= i < |rs| && rs[i].key == k;
      assert rs[i] == published[k];
    }
  }

  // ---------- what is kept ----------

  /** What was last said of a way to run commands, and of a way to play. */
  function LastCommand(events: seq<Event>): bool {
    if events == [] then false
    else
      var e := events[|events| - 1];
      if e.UsesCommand? then e.given else LastCommand(events[..|events| - 1])
  }

  function LastPlay(events: seq<Event>): bool {
    if events == [] then false
    else
      var e := events[|events| - 1];
      if e.UsesPlay? then e.given else LastPlay(events[..|events| - 1])
  }

  lemma {:induction false} RunOneMore(s: Server, events: seq<Event>, e: Event)
    requires Legal(s, events + [e])
    ensures Legal(s, events) && Enabled(Run(s, events), e)
    ensures Run(s, events + [e]) == Step(Run(s, events), e)
    decreases |events|
  {
    hide Step, Enabled;
    if events == [] {
      assert events + [e] == [e] && [e][1..] == [];
    } else {
      assert (events + [e])[1..] == events[1..] + [e];
      RunOneMore(Step(s, events[0]), events[1..], e);
    }
  }

  /** In every run the server has the ways to run commands and to play that were last given. */
  lemma {:induction false} TheLastGivenIsKept(events: seq<Event>)
    requires Legal(START, events)
    ensures var s := Run(START, events); s.command == LastCommand(events) && s.plays == LastPlay(events)
    decreases |events|
  {
    hide Run, Legal, Step;
    if events == [] {
      RunOfNothing();
    } else {
      var less, e := events[..|events| - 1], events[|events| - 1];
      assert events == less + [e];
      RunOneMore(START, less, e);
      TheLastGivenIsKept(less);
      WhatIsGiven(Run(START, less), e);
    }
  }

  lemma WhatIsGiven(s: Server, e: Event)
    requires Enabled(s, e)
    ensures Step(s, e).command <==> if e.UsesCommand? then e.given else s.command
    ensures Step(s, e).plays <==> if e.UsesPlay? then e.given else s.plays
  {
    hide Absorb, EncodeAll, Send;
  }

  lemma RunOfNothing()
    ensures Run(START, []) == START
  {
  }

  /**
   The cache changes by publications, by an empty command when the way to run one is
   given and none is cached, and by the sound being forgotten, and by nothing else.
   */
  lemma WhatTheCacheKeeps(s: Server, e: Event)
    requires Enabled(s, e) && !e.Publishes?
    ensures Step(s, e).published ==
            if e.ForgetsSound? then s.published - {0x1fe30ceb}
            else if e == UsesCommand(true) && 0xfe0b7e46 !in s.published then
              s.published[0xfe0b7e46 := Reading(0xfe0b7e46, 0, [], false, 0, true, Text)]
            else s.published
  {
  }
}
