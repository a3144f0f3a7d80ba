/**
 A subscriber's last word on an entity is the cache's word on it
 (internal/esphome/state.go:63-69, 162-193, 234-275).
 */
module PublishedProofs {
  import opened PublishedModel
  import W = ProtobufModel
  import P = ProtobufProofs
  import opened Wrappers

  import GoInt

  /** The last state frame for a key among those queued. */
  function LastOf(log: seq<Frame>, key: nat): seq<Frame> {
    if log == [] then []
    else if log[|log| - 1].StateOf? && log[|log| - 1].key == key then [log[|log| - 1]]
    else LastOf(log[..|log| - 1], key)
  }

  lemma LastOfMore(log: seq<Frame>, f: Frame, key: nat)
    ensures LastOf(log + [f], key) == if f.StateOf? && f.key == key then [f] else LastOf(log, key)
  {
    assert (log + [f])[..|log|] == log;
  }

  lemma EncodeAllMore(rs: seq<Reading>, r: Reading)
    ensures EncodeAll(rs + [r]) == EncodeAll(rs) + [Encode(r)]
  {
    assert (rs + [r])[..|rs|] == rs;
  }

  predicate WellKeyed(published: map<nat, Reading>) {
    forall k | k in published :: published[k].key == k
  }

  /** A log whose last word on every entity of the cache is the cache's. */
  predicate Agrees(log: seq<Frame>, published: map<nat, Reading>) {
    forall k | k in published :: LastOf(log, k) == [Encode(published[k])]
  }

  predicate IsSubscriber(s: Server, c: nat) {
    c in s.conns && c in s.known && s.known[c].accepted
  }

  /** What every step keeps. */
  ghost predicate Coherent(s: Server) {
    && WellKeyed(s.published)
    && (s.command ==> KEY_TEXT in s.published)
    && (forall c | c in s.conns :: c in s.known)
    && (forall c | c in s.known && s.known[c].accepted :: s.known[c].states)
    && (forall c | IsSubscriber(s, c) :: Agrees(s.known[c].log, s.published))
    && |s.conns| <= MAX_CONNS
  }

  /** Whoever is sent what changed agrees with the cache it changed. */
  lemma {:induction false} ChangesAreEnough(log: seq<Frame>, published: map<nat, Reading>, rs: seq<Reading>)
    requires Agrees(log, published) && WellKeyed(published)
    ensures var (p, changed) := Absorb(published, rs);
      Agrees(log + EncodeAll(changed), p) && WellKeyed(p) && published.Keys <= p.Keys
    decreases |rs|
  {
    hide Encode;
    if rs == [] {
      assert log + [] == log;
    } else {
      ChangesAreEnough(log, published, rs[..|rs| - 1]);
      var (p, changed) := Absorb(published, rs[..|rs| - 1]);
      var r := rs[|rs| - 1];
      EncodeAllMore(changed, r);
      assert log + (EncodeAll(changed) + [Encode(r)]) == log + EncodeAll(changed) + [Encode(r)];
      EncodeNamesItsKey(r);
      if !(r.key in p && Same(p[r.key], r)) {
        var q := p[r.key := r];
        forall k | k in q ensures LastOf(log + EncodeAll(changed) + [Encode(r)], k) == [Encode(q[k])] {
          LastOfMore(log + EncodeAll(changed), Encode(r), k);
        }
      }
    }
  }

  lemma EncodeNamesItsKey(r: Reading)
    ensures Encode(r).StateOf? && Encode(r).key == r.key
  {
  }

  /** Frames for entities of the cache that say what it says never break agreement. */
  lemma {:induction false} SnapshotFramesAgree(
      log: seq<Frame>, published: map<nat, Reading>, rs: seq<Reading>, k: nat)
    requires forall i | 0 <= i < |rs| :: rs[i].key in published && published[rs[i].key] == rs[i]
    requires k in published
    requires LastOf(log, k) == [Encode(published[k])] || exists i :: 0 <= i < |rs| && rs[i].key == k
    ensures LastOf(log + EncodeAll(rs), k) == [Encode(published[k])]
    decreases |rs|
  {
    hide Encode;
    if rs == [] {
      assert log + [] == log;
    } else {
      var before, r := rs[..|rs| - 1], rs[|rs| - 1];
      EncodeNamesItsKey(r);
      EncodeAllMore(before, r);
      assert rs == before + [r];
      assert log + (EncodeAll(before) + [Encode(r)]) == log + EncodeAll(before) + [Encode(r)];
      LastOfMore(log + EncodeAll(before), Encode(r), k);
      if r.key != k {
        SnapshotFramesAgree(log, published, before, k);
      }
    }
  }

  lemma {:induction false} EncodeAllPrefix(rs: seq<Reading>, n: nat)
    requires n <= |rs|
    ensures |EncodeAll(rs)| == |rs| && EncodeAll(rs)[..n] == EncodeAll(rs[..n])
    decreases |rs|
  {
    if rs != [] {
      EncodeAllPrefix(rs[..|rs| - 1], if n < |rs| then n else |rs| - 1);
      if n < |rs| {
        assert rs[..|rs| - 1][..n] == rs[..n];
      } else {
        assert rs[..n] == rs;
      }
    }
  }

  lemma SubscribeKeepsCoherent(s: Server, c: nat, snapshot: seq<Reading>, room: nat)
    requires Coherent(s) && c in s.known && IsSnapshot(s.published, snapshot)
    ensures Coherent(Subscribe(s, c, snapshot, room))
  {
    hide Encode, EncodeAll, LastOf;
    var t := Subscribe(s, c, snapshot, room);
    if IsSubscriber(t, c) {
      var n := if room < |snapshot| then room else |snapshot|;
      EncodeAllPrefix(snapshot, n);
      assert snapshot[..|snapshot|] == snapshot;
      assert t.known[c].log == s.known[c].log + EncodeAll(snapshot[..n]);
      forall k | k in s.published ensures LastOf(t.known[c].log, k) == [Encode(s.published[k])] {
        if n == |snapshot| {
          var i :| 0 <= i < |snapshot| && snapshot[i].key == k;
          assert snapshot[..n][i].key == k;
        } else {
          assert IsSubscriber(s, c);
        }
        SnapshotFramesAgree(s.known[c].log, s.published, snapshot[..n], k);
      }
    }
    forall d | IsSubscriber(t, d) ensures Agrees(t.known[d].log, t.published) {
      assert d != c ==> IsSubscriber(s, d);
    }
  }

  lemma SmallerConns(a: set<nat>, b: set<nat>)
    requires a <= b
    ensures |a| <= |b|
  {
    if a != b {
      assert b == a + (b - a);
      assert |b| == |a| + |b - a|;
    }
  }

  lemma SentWhenTaken(conn: Conn, frames: seq<Frame>, room: map<nat, nat>, c: nat)
    ensures Send(conn, frames, Room(room, c)).1 == Takes(frames, room, c)
  {
  }

  /** Whoever is still connected after a round wanted no frames, or took them all. */
  lemma EachConnSendsOrDrops(s: Server, a: Audience, frames: seq<Frame>, room: map<nat, nat>, c: nat)
    requires forall d | d in s.conns :: d in s.known
    ensures var t := EachConn(s, a, frames, room);
      && t.conns <= s.conns && t.known.Keys == s.known.Keys && t.published == s.published && t.command == s.command
      && (c in t.known ==> t.known[c].states == s.known[c].states && t.known[c].accepted == s.known[c].accepted)
      && (c in t.conns ==>
            t.known[c].log == if Wants(s.known[c], a) then s.known[c].log + frames else s.known[c].log)
  {
    hide Wants;
    var t := EachConn(s, a, frames, room);
    if c in t.conns && Wants(s.known[c], a) {
      assert Takes(frames, room, c);
    }
  }

  lemma PublishKeepsCoherent(s: Server, rs: seq<Reading>, room: map<nat, nat>)
    requires Coherent(s)
    ensures Coherent(Publish(s, rs, room))
  {
    hide Encode, EncodeAll, LastOf, Absorb, EachConn, Agrees;
    var t := Publish(s, rs, room);
    var (p, changed) := Absorb(s.published, rs);
    AbsorbKeepsKeys(s.published, rs);
    var u := s.(published := p);
    forall c ensures (c in t.conns ==> c in s.conns) && t.known.Keys == s.known.Keys
                     && (c in t.known && t.known[c].accepted ==> t.known[c].states)
                     && (IsSubscriber(t, c) ==> Agrees(t.known[c].log, p)) {
      EachConnSendsOrDrops(u, States, EncodeAll(changed), room, c);
      if IsSubscriber(t, c) {
        assert IsSubscriber(s, c);
        ChangesAreEnough(s.known[c].log, s.published, rs);
        EncodeAllPrefix(changed, 0);
        assert changed == [] ==> s.known[c].log + EncodeAll(changed) == s.known[c].log;
      }
    }
    EachConnSendsOrDrops(u, States, EncodeAll(changed), room, 0);
    SmallerConns(t.conns, s.conns);
  }

  lemma {:induction false} AbsorbKeepsKeys(published: map<nat, Reading>, rs: seq<Reading>)
    requires WellKeyed(published)
    ensures WellKeyed(Absorb(published, rs).0) && published.Keys <= Absorb(published, rs).0.Keys
    decreases |rs|
  {
    if rs != [] {
      AbsorbKeepsKeys(published, rs[..|rs| - 1]);
    }
  }

  lemma OtherFramesAgree(log: seq<Frame>, published: map<nat, Reading>, msgType: nat)
    requires Agrees(log, published)
    ensures Agrees(log + [Other(msgType)], published)
  {
    hide LastOf, Encode;
    forall k | k in published ensures LastOf(log + [Other(msgType)], k) == [Encode(published[k])] {
      LastOfMore(log, Other(msgType), k);
    }
  }

  lemma ARoundOfOthersKeepsCoherent(s: Server, a: Audience, msgType: nat, room: map<nat, nat>)
    requires Coherent(s)
    ensures Coherent(EachConn(s, a, [Other(msgType)], room))
  {
    hide Agrees, EachConn, Wants;
    var t := EachConn(s, a, [Other(msgType)], room);
    forall c ensures (c in t.conns ==> c in s.conns) && t.known.Keys == s.known.Keys
                     && (c in t.known && t.known[c].accepted ==> t.known[c].states)
                     && (IsSubscriber(t, c) ==> Agrees(t.known[c].log, s.published))
                     && t.published == s.published && t.command == s.command {
      EachConnSendsOrDrops(s, a, [Other(msgType)], room, c);
      if IsSubscriber(t, c) {
        assert IsSubscriber(s, c);
        OtherFramesAgree(s.known[c].log, s.published, msgType);
      }
    }
    EachConnSendsOrDrops(s, a, [Other(msgType)], room, 0);
    SmallerConns(t.conns, s.conns);
  }

  lemma FirePressKeepsCoherent(s: Server, room: map<nat, nat>, later: map<nat, nat>)
    requires Coherent(s)
    ensures Coherent(FirePress(s, room, later))
  {
    hide Coherent, EachConn;
    ARoundOfOthersKeepsCoherent(s, States, MSG_EVENT_STATE, room);
    var t := EachConn(s, States, [Other(MSG_EVENT_STATE)], room);
    ARoundOfOthersKeepsCoherent(t, Services, MSG_HOMEASSISTANT_ACT, later);
  }

  lemma SubscribeServicesKeepsCoherent(s: Server, c: nat)
    requires Coherent(s) && c in s.known
    ensures Coherent(Step(s, SubscribesServices(c)))
  {
    hide Agrees;
    var t := Step(s, SubscribesServices(c));
    forall d | IsSubscriber(t, d) ensures Agrees(t.known[d].log, s.published) {
      assert IsSubscriber(s, d);
    }
  }

  lemma SendOtherKeepsCoherent(s: Server, c: nat, msgType: nat)
    requires Coherent(s) && c in s.known
    ensures Coherent(SendOther(s, c, msgType))
  {
    hide Agrees;
    var t := SendOther(s, c, msgType);
    forall d | IsSubscriber(t, d) ensures Agrees(t.known[d].log, s.published) {
      assert IsSubscriber(s, d);
      OtherFramesAgree(s.known[d].log, s.published, msgType);
    }
  }

  lemma StepKeepsCoherent(s: Server, e: Event)
    requires Coherent(s) && Enabled(s, e)
    ensures Coherent(Step(s, e))
  {
    hide LastOf, Encode, Publish, Subscribe, FirePress, SendOther, UseCommand, Connect;
    match e
    case Subscribes(c, snapshot, room) => SubscribeKeepsCoherent(s, c, snapshot, room);
    case Publishes(rs, rooms) => PublishKeepsCoherent(s, rs, rooms);
    case FiresPress(rooms, later) => FirePressKeepsCoherent(s, rooms, later);
    case SubscribesServices(c) => SubscribeServicesKeepsCoherent(s, c);
    case SendsOther(c, msgType) => SendOtherKeepsCoherent(s, c, msgType);
    case Connects(c) => ConnectKeepsCoherent(s, c);
    case UsesCommand(given) => UseCommandKeepsCoherent(s, given);
    case _ => SayingNoMoreKeepsCoherent(s, Step(s, e));
  }

  lemma SayingNoMoreKeepsCoherent(s: Server, t: Server)
    requires Coherent(s) && t.known == s.known && t.conns <= s.conns
    requires WellKeyed(t.published) && (t.command ==> KEY_TEXT in t.published)
    requires t.conns == {} || forall k | k in t.published :: k in s.published && t.published[k] == s.published[k]
    ensures Coherent(t)
  {
    hide LastOf, Encode;
    SmallerConns(t.conns, s.conns);
    forall c | IsSubscriber(t, c) ensures Agrees(t.known[c].log, t.published) {
      assert IsSubscriber(s, c);
    }
  }

  lemma ConnectKeepsCoherent(s: Server, c: nat)
    requires Coherent(s) && c !in s.known
    ensures Coherent(Connect(s, c))
  {
    hide LastOf, Encode, Agrees;
    var t := Connect(s, c);
    forall d | IsSubscriber(t, d) ensures Agrees(t.known[d].log, t.published) {
      assert IsSubscriber(s, d);
    }
  }

  /** A command reaches the cache unsent only when there is nobody left to send it to. */
  lemma UseCommandKeepsCoherent(s: Server, given: bool)
    requires Coherent(s)
    ensures Coherent(UseCommand(s, given))
  {
    assert WellKeyed(s.published) && (s.command ==> KEY_TEXT in s.published);
    SayingNoMoreKeepsCoherent(s, UseCommand(s, given));
  }

  lemma {:induction false} RunKeepsCoherent(s: Server, events: seq<Event>)
    requires Coherent(s) && Legal(s, events)
    ensures Coherent(Run(s, events))
    decreases |events|
  {
    hide Coherent, Step, Enabled;
    if events != [] {
      StepKeepsCoherent(s, events[0]);
      RunKeepsCoherent(Step(s, events[0]), events[1..]);
    }
  }

  /**
   In every run: of each subscriber still connected whose snapshot was accepted, the
   last frame queued for an entity is what the cache has of it, if it has any.
   */
  lemma SubscribersAreUpToDate(events: seq<Event>, c: nat, key: nat)
    requires Legal(START, events)
    requires var s := Run(START, events); IsSubscriber(s, c) && key in s.published
    ensures var s := Run(START, events);
      LastOf(s.known[c].log, key) == [Encode(s.published[key])] && |s.conns| <= 8
  {
    RunKeepsCoherent(START, events);
    hide LastOf, Encode, Run;
  }

  // ---------- what is not sent ----------

  /** Readings the cache already has reach nobody. */
  lemma {:induction false} OldReadingsAreNotChanges(published: map<nat, Reading>, rs: seq<Reading>)
    requires forall i | 0 <= i < |rs| :: rs[i].key in published && Same(published[rs[i].key], rs[i])
    ensures Absorb(published, rs) == (published, [])
    decreases |rs|
  {
    if rs != [] {
      OldReadingsAreNotChanges(published, rs[..|rs| - 1]);
    }
  }

  predicate Distinct(rs: seq<Reading>) {
    forall i, j | 0 <= i < j < |rs| :: rs[i].key != rs[j].key
  }

  lemma {:induction false} AbsorbedReadingsAreOld(published: map<nat, Reading>, rs: seq<Reading>)
    requires Distinct(rs) && forall i | 0 <= i < |rs| :: !IsNaN(rs[i].value)
    ensures var p := Absorb(published, rs).0;
      forall i | 0 <= i < |rs| :: rs[i].key in p && Same(p[rs[i].key], rs[i])
    decreases |rs|
  {
    if rs != [] {
      AbsorbedReadingsAreOld(published, rs[..|rs| - 1]);
    }
  }

  /** Readings published again, none of them a NaN, change nothing and are sent to nobody. */
  lemma UnchangedReadingsAreNotResent(s: Server, rs: seq<Reading>, room: map<nat, nat>, again: map<nat, nat>)
    requires Distinct(rs) && forall i | 0 <= i < |rs| :: !IsNaN(rs[i].value)
    ensures Publish(Publish(s, rs, room), rs, again) == Publish(s, rs, room)
  {
    hide Absorb, EncodeAll;
    var t := Publish(s, rs, room);
    AbsorbedReadingsAreOld(s.published, rs);
    OldReadingsAreNotChanges(t.published, rs);
  }

  /** What a subscriber that stays is sent of a round of readings: those that changed the cache, and no others. */
  lemma OnlyChangesAreSent(s: Server, rs: seq<Reading>, room: map<nat, nat>, c: nat)
    requires Coherent(s)
    requires c in Publish(s, rs, room).conns
    ensures var t, changed := Publish(s, rs, room), Absorb(s.published, rs).1;
      && c in s.conns
      && t.known[c].log == s.known[c].log + (if s.known[c].states then EncodeAll(changed) else [])
  {
    hide Absorb, EachConn, Encode, Agrees;
    var changed := Absorb(s.published, rs).1;
    EachConnSendsOrDrops(s.(published := Absorb(s.published, rs).0), States, EncodeAll(changed), room, c);
    assert s.known[c].log + [] == s.known[c].log;
  }

  /** The fields of the wire's types. */
  predicate Typed(r: Reading) {
    r.key < W.UINT32 && r.value < W.UINT32 && r.state < W.UINT32 && |r.text| < GoInt.INT64_LIMIT
  }

  /** Every state frame is a message whose first field is the key it is about. */
  lemma AStateFrameNamesItsEntity(r: Reading)
    requires Typed(r)
    ensures var (fields, error) := W.Walk(Encode(r).payload);
      error == None && fields != [] && fields[0] == W.Entry(1, W.WIRE_FIXED32, r.key, [])
  {
    hide W.Walk, W.Written;
    var calls := FieldsOf(r);
    assert P.Writable(calls);
    P.WalkUndoesWriting(calls);
    assert P.EntriesOf(calls)[0] == P.EntryOf(calls[0]);
  }
}
