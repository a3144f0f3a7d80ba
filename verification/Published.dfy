/**
 The server's cache and connections, a method for each stretch of code under its lock
 (internal/esphome/state.go, server.go, media.go).
 */
module PublishedClass {
  import Model = PublishedModel
  import Proofs = PublishedProofs
  import opened PublishedModel

  class Server {
    var conns: set<nat>
    var known: map<nat, Conn>
    var published: map<nat, Reading>
    var command: bool
    var plays: bool

    ghost function Abs(): Model.Server
      reads this
    {
      Model.Server(conns, known, published, command, plays)
    }

    ghost predicate Valid()
      reads this
    {
      Proofs.Coherent(Abs())
    }

    constructor ()
      ensures Abs() == START && Valid()
    {
      conns, known, published, command, plays := {}, map[], map[], false, false;
    }

    method ServeConn(c: nat)
      requires Valid() && c !in known
      modifies `conns, `known
      ensures Valid() && Abs() == Connect(old(Abs()), c)
    {
      Proofs.ConnectKeepsCoherent(Abs(), c);
      hide Proofs.Coherent;
      if |conns| >= MAX_CONNS { return; }
      conns := conns + {c};
      known := known[c := Conn(false, false, false, [])];
    }

    method Leave(c: nat)
      requires Valid()
      modifies `conns
      ensures Valid() && Abs() == Step(old(Abs()), Leaves(c))
    {
      Proofs.StepKeepsCoherent(Abs(), Leaves(c));
      hide Proofs.Coherent;
      conns := conns - {c};
    }

    /** Every reading of the cache once, in whatever order. */
    method Snapshot() returns (readings: seq<Reading>)
      requires Valid()
      ensures IsSnapshot(published, readings)
    {
      readings := [];
      var left := published.Keys;
      while left != {}
        invariant left <= published.Keys
        invariant forall i | 0 <= i < |readings| ::
                    && readings[i].key in published && published[readings[i].key] == readings[i]
                    && readings[i].key !in left
        invariant forall i, j | 0 <= i < j < |readings| :: readings[i].key != readings[j].key
        invariant forall k | k in published && k !in left :: exists i :: 0 <= i < |readings| && readings[i].key == k
        decreases |left|
      {
        var k :| k in left;
        left := left - {k};
        ghost var before := readings;
        readings := readings + [published[k]];
        assert readings[|before|].key == k;
        assert forall i | 0 <= i < |before| :: readings[i] == before[i];
      }
    }

    method SubscribeStates(c: nat, room: nat) returns (ok: bool, ghost snapshot: seq<Reading>)
      requires Valid() && c in known
      modifies `known
      ensures Valid() && IsSnapshot(published, snapshot)
      ensures Abs() == Subscribe(old(Abs()), c, snapshot, room)
      ensures ok == (room >= |EncodeAll(snapshot)|)
    {
      var readings := Snapshot();
      snapshot := readings;
      Proofs.SubscribeKeepsCoherent(Abs(), c, snapshot, room);
      hide Proofs.Coherent, EncodeAll;
      var (d, sent) := Send(known[c].(states := true), EncodeAll(readings), room);
      known := known[c := d.(accepted := sent || known[c].accepted)];
      return sent, snapshot;
    }

    method Absorb(readings: seq<Reading>) returns (changed: seq<Reading>)
      modifies `published
      ensures (published, changed) == Model.Absorb(old(published), readings)
    {
      changed := [];
      assert readings[..0] == [];
      for i := 0 to |readings|
        invariant (published, changed) == Model.Absorb(old(published), readings[..i])
      {
        assert readings[..i + 1][..i] == readings[..i];
        var r := readings[i];
        if !(r.key in published && Same(published[r.key], r)) {
          published := published[r.key := r];
          changed := changed + [r];
        }
      }
      assert readings[..|readings|] == readings;
    }

    /** The round, told connection by connection. */
    lemma SameAsEachConn(s: Model.Server, a: Audience, frames: seq<Frame>, room: map<nat, nat>)
      requires forall c | c in s.conns :: c in s.known
      requires published == s.published && command == s.command && plays == s.plays
      requires conns <= s.conns && known.Keys == s.known.Keys
      requires forall c | c in known :: known[c] ==
                 (if c in s.conns && Wants(s.known[c], a)
                  then Send(s.known[c], frames, Room(room, c)).0 else s.known[c])
      requires forall c | c in s.conns :: c in conns <==> !(Wants(s.known[c], a) && !Takes(frames, room, c))
      ensures Abs() == Model.EachConn(s, a, frames, room)
    {
      hide Send, Takes;
      var want := Model.EachConn(s, a, frames, room);
      assert conns == want.conns;
      assert known == want.known;
    }

    /** Sends to everyone who wants it, and drops those that cannot take it. */
    method EachConn(a: Audience, frames: seq<Frame>, room: map<nat, nat>)
      requires forall c | c in conns :: c in known
      modifies `conns, `known
      ensures Abs() == Model.EachConn(old(Abs()), a, frames, room)
    {
      hide Send, Takes, Room;
      var left := conns;
      while left != {}
        invariant left <= conns <= old(conns) && known.Keys == old(known).Keys
        invariant forall c | c in left :: known[c] == old(known)[c]
        invariant forall c | c in known && c !in left :: known[c] ==
                    (if c in old(conns) && Wants(old(known)[c], a)
                     then Send(old(known)[c], frames, Room(room, c)).0 else old(known)[c])
        invariant forall c | c in old(conns) && c !in left ::
                    c in conns <==> !(Wants(old(known)[c], a) && !Takes(frames, room, c))
        decreases |left|
      {
        var c :| c in left;
        left := left - {c};
        if Wants(known[c], a) {
          Proofs.SentWhenTaken(known[c], frames, room, c);
          var (d, ok) := Send(known[c], frames, Room(room, c));
          known := known[c := d];
          if !ok {
            conns := conns - {c};
          }
        }
      }
      SameAsEachConn(old(Abs()), a, frames, room);
    }

    method Publish(readings: seq<Reading>, room: map<nat, nat>) returns (changed: seq<Reading>)
      requires Valid()
      modifies this
      ensures Valid() && Abs() == Model.Publish(old(Abs()), readings, room)
      ensures changed == Model.Absorb(old(published), readings).1
    {
      Proofs.PublishKeepsCoherent(Abs(), readings, room);
      hide Model.Absorb, Model.EachConn, EncodeAll, Proofs.Agrees;
      changed := Absorb(readings);
      if changed != [] {
        EachConn(States, EncodeAll(changed), room);
      }
    }

    method SubscribeServices(c: nat)
      requires Valid() && c in known
      modifies `known
      ensures Valid() && Abs() == Step(old(Abs()), SubscribesServices(c))
    {
      Proofs.SubscribeServicesKeepsCoherent(Abs(), c);
      hide Proofs.Coherent;
      known := known[c := known[c].(services := true)];
    }

    method FirePress(room: map<nat, nat>, later: map<nat, nat>)
      requires Valid()
      modifies `conns, `known
      ensures Valid() && Abs() == Model.FirePress(old(Abs()), room, later)
    {
      Proofs.FirePressKeepsCoherent(Abs(), room, later);
      Proofs.ARoundOfOthersKeepsCoherent(Abs(), States, MSG_EVENT_STATE, room);
      hide Model.EachConn, Proofs.Agrees;
      EachConn(States, [Other(MSG_EVENT_STATE)], room);
      EachConn(Services, [Other(MSG_HOMEASSISTANT_ACT)], later);
    }

    method ForgetSound()
      requires Valid()
      modifies `published
      ensures Valid() && Abs() == Model.ForgetSound(old(Abs()))
    {
      Proofs.StepKeepsCoherent(Abs(), ForgetsSound);
      hide Proofs.Coherent;
      published := published - {KEY_SOUND};
    }

    method UseCommand(given: bool)
      requires Valid()
      modifies `conns, `published, `command
      ensures Valid() && Abs() == Model.UseCommand(old(Abs()), given)
    {
      Proofs.UseCommandKeepsCoherent(Abs(), given);
      hide Proofs.Coherent;
      var relist := !command && given;
      command := given;
      if given {
        if KEY_TEXT !in published {
          published := published[KEY_TEXT := NO_COMMAND];
        }
      }
      if relist {
        conns := {};
      }
    }

    method UsePlay(given: bool)
      requires Valid()
      modifies `conns, `plays
      ensures Valid() && Abs() == Model.UsePlay(old(Abs()), given)
    {
      Proofs.StepKeepsCoherent(Abs(), UsesPlay(given));
      hide Proofs.Coherent;
      var relist := !plays && given;
      plays := given;
      if relist {
        conns := {};
      }
    }
  }
}
