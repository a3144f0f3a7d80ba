/**
 What the server has told of each entity, and who was told
 (internal/esphome/state.go, server.go, media.go). Each stretch of code under the
 server's lock is one step. A connection's queue drains by itself and holds only
 so much, so any frame may find it full.
 */
module PublishedModel {
  import opened ProtobufModel
  import opened Wrappers

  const MAX_CONNS := 8

  /** The FNV-1a hashes of "speaker_playing" and "alexa_command". */
  const KEY_SOUND := 0x1fe30ceb
  const KEY_TEXT := 0xfe0b7e46

  datatype Kind = Sensor | Binary | Select | Switch | Media | Text | TextSensor | Number

  /** `value` is the bit pattern of a 32-bit float. */
  datatype Reading = Reading(
    key: nat, value: nat, text: seq<Byte>, muted: bool, state: nat, ok: bool, kind: Kind)

  predicate IsNaN(bits: nat) {
    bits % 0x8000_0000 > 0x7f80_0000
  }

  predicate IsZero(bits: nat) {
    bits % 0x8000_0000 == 0
  }

  /** Floats are compared as numbers: both zeros are the same, and no NaN is the same as anything. */
  predicate SameFloat(a: nat, b: nat) {
    !IsNaN(a) && !IsNaN(b) && (a == b || (IsZero(a) && IsZero(b)))
  }

  predicate Same(a: Reading, b: Reading) {
    SameFloat(a.value, b.value) && a.(value := 0) == b.(value := 0)
  }

  // ---------- what a reading is sent as ----------

  /** A frame queued for a connection; a state frame names its entity. */
  datatype Frame = StateOf(key: nat, msgType: nat, payload: seq<Byte>) | Other(msgType: nat)

  function FloatState(r: Reading): seq<Call> {
    [Fixed32(1, r.key), Fixed32(2, r.value), Boolean(3, !r.ok)]
  }

  function MsgTypeOf(kind: Kind): nat {
    match kind
    case Sensor => 25
    case Binary => 21
    case Select => 53
    case Switch => 26
    case Media => 64
    case Text => 98
    case TextSensor => 27
    case Number => 50
  }

  function FieldsOf(r: Reading): seq<Call> {
    match r.kind
    case Sensor => FloatState(r)
    case Binary => [Fixed32(1, r.key), Boolean(2, !IsZero(r.value)), Boolean(3, !r.ok)]
    case Select => [Fixed32(1, r.key), Str(2, r.text)]
    case Switch => [Fixed32(1, r.key), Boolean(2, !IsZero(r.value))]
    case Media => [Fixed32(1, r.key), U32(2, r.state), Fixed32(3, r.value), Boolean(4, r.muted)]
    case Text => [Fixed32(1, r.key), Str(2, r.text), Boolean(3, false)]
    case TextSensor => [Fixed32(1, r.key), Str(2, r.text), Boolean(3, !r.ok)]
    case Number => FloatState(r)
  }

  function Encode(r: Reading): Frame {
    StateOf(r.key, MsgTypeOf(r.kind), Written(FieldsOf(r)))
  }

  function EncodeAll(rs: seq<Reading>): seq<Frame> {
    if rs == [] then [] else EncodeAll(rs[..|rs| - 1]) + [Encode(rs[|rs| - 1])]
  }

  // ---------- the server ----------

  /** `log` is everything queued for a connection; `accepted` that a whole snapshot was. */
  datatype Conn = Conn(states: bool, services: bool, accepted: bool, log: seq<Frame>)

  datatype Server = Server(
    conns: set<nat>, known: map<nat, Conn>, published: map<nat, Reading>, command: bool, plays: bool)

  const START := Server({}, map[], map[], false, false)

  /** As many of the frames as the queue had room for, and whether that was all. */
  function Send(c: Conn, frames: seq<Frame>, room: nat): (Conn, bool) {
    if room >= |frames| then (c.(log := c.log + frames), true)
    else (c.(log := c.log + frames[..room]), false)
  }

  /** The readings taken into the cache, and those that changed it. */
  function Absorb(published: map<nat, Reading>, rs: seq<Reading>): (map<nat, Reading>, seq<Reading>) {
    if rs == [] then (published, [])
    else
      var (p, changed) := Absorb(published, rs[..|rs| - 1]);
      var r := rs[|rs| - 1];
      if r.key in p && Same(p[r.key], r) then (p, changed) else (p[r.key := r], changed + [r])
  }

  /** What a connection may have asked for: entities' states, or calls of services. */
  datatype Audience = States | Services

  predicate Wants(c: Conn, a: Audience) {
    match a
    case States => c.states
    case Services => c.services
  }

  /** Every connection that wants them is sent the frames, and dropped if it cannot take them all. */
  function EachConn(s: Server, a: Audience, frames: seq<Frame>, room: map<nat, nat>): Server {
    s.(conns := (set c | c in s.conns && !(c in s.known && Wants(s.known[c], a) && !Takes(frames, room, c))),
       known := (map c | c in s.known ::
                   if c in s.conns && Wants(s.known[c], a) then Send(s.known[c], frames, Room(room, c)).0
                   else s.known[c]))
  }

  function Room(room: map<nat, nat>, c: nat): nat {
    if c in room then room[c] else 0
  }

  predicate Takes(frames: seq<Frame>, room: map<nat, nat>, c: nat) {
    Room(room, c) >= |frames|
  }

  function Publish(s: Server, rs: seq<Reading>, room: map<nat, nat>): Server {
    var (p, changed) := Absorb(s.published, rs);
    var t := s.(published := p);
    if changed == [] then t else EachConn(t, States, EncodeAll(changed), room)
  }

  /** A snapshot is every reading of the cache once, in any order. */
  predicate IsSnapshot(published: map<nat, Reading>, rs: seq<Reading>) {
    && (forall i | 0 <= i < |rs| :: rs[i].key in published && published[rs[i].key] == rs[i])
    && (forall i, j | 0 <= i < j < |rs| :: rs[i].key != rs[j].key)
    && (forall k | k in published :: exists i :: 0 <= i < |rs| && rs[i].key == k)
  }

  /** A connection subscribes and is sent a snapshot; one it cannot take ends it. */
  function Subscribe(s: Server, c: nat, snapshot: seq<Reading>, room: nat): Server
    requires c in s.known
  {
    var (d, ok) := Send(s.known[c].(states := true), EncodeAll(snapshot), room);
    s.(known := s.known[c := d.(accepted := ok || s.known[c].accepted)])
  }

  function Connect(s: Server, c: nat): Server
    requires c !in s.known
  {
    if |s.conns| >= MAX_CONNS then s
    else s.(conns := s.conns + {c}, known := s.known[c := Conn(false, false, false, [])])
  }

  function ForgetSound(s: Server): Server {
    s.(published := s.published - {KEY_SOUND})
  }

  const NO_COMMAND := Reading(KEY_TEXT, 0, [], false, 0, true, Text)

  /** A way to run commands is given or taken away; the first to be given makes everyone list again. */
  function UseCommand(s: Server, given: bool): Server {
    var t := s.(command := given,
      published := if given && KEY_TEXT !in s.published then s.published[KEY_TEXT := NO_COMMAND] else s.published);
    if !s.command && given then t.(conns := {}) else t
  }

  function UsePlay(s: Server, given: bool): Server {
    if !s.plays && given then s.(plays := given, conns := {}) else s.(plays := given)
  }

  const MSG_EVENT_STATE := 108
  const MSG_HOMEASSISTANT_ACT := 35

  /** A gesture is sent as an event to whoever wants states, and then as a call to whoever wants services. */
  function FirePress(s: Server, room: map<nat, nat>, later: map<nat, nat>): Server {
    EachConn(EachConn(s, States, [Other(MSG_EVENT_STATE)], room), Services, [Other(MSG_HOMEASSISTANT_ACT)], later)
  }

  /** A frame that tells of no entity's state. */
  function SendOther(s: Server, c: nat, msgType: nat): Server
    requires c in s.known
  {
    s.(known := s.known[c := Send(s.known[c], [Other(msgType)], 1).0])
  }

  // ---------- any order of steps ----------

  datatype Event =
    | Connects(c: nat)
    | Subscribes(c: nat, snapshot: seq<Reading>, room: nat)
    | Publishes(readings: seq<Reading>, rooms: map<nat, nat>)
    | FiresPress(rooms: map<nat, nat>, later: map<nat, nat>)
    | SubscribesServices(c: nat)
    | SendsOther(c: nat, msgType: nat)
    | ForgetsSound
    | UsesCommand(given: bool)
    | UsesPlay(given: bool)
    | Leaves(c: nat)

  /** A connection may subscribe after it was dropped: its reader only stops when it next reads. */
  predicate Enabled(s: Server, e: Event) {
    match e
    case Connects(c) => c !in s.known
    case Subscribes(c, snapshot, _) => c in s.known && IsSnapshot(s.published, snapshot)
    case SendsOther(c, _) => c in s.known
    case SubscribesServices(c) => c in s.known
    case _ => true
  }

  function Step(s: Server, e: Event): Server
    requires Enabled(s, e)
  {
    match e
    case Connects(c) => Connect(s, c)
    case Subscribes(c, snapshot, room) => Subscribe(s, c, snapshot, room)
    case Publishes(rs, rooms) => Publish(s, rs, rooms)
    case FiresPress(rooms, later) => FirePress(s, rooms, later)
    case SubscribesServices(c) => s.(known := s.known[c := s.known[c].(services := true)])
    case SendsOther(c, msgType) => SendOther(s, c, msgType)
    case ForgetsSound => ForgetSound(s)
    case UsesCommand(given) => UseCommand(s, given)
    case UsesPlay(given) => UsePlay(s, given)
    case Leaves(c) => s.(conns := s.conns - {c})
  }

  predicate Legal(s: Server, events: seq<Event>)
    decreases |events|
  {
    events == [] || (Enabled(s, events[0]) && Legal(Step(s, events[0]), events[1..]))
  }

  function Run(s: Server, events: seq<Event>): Server
    requires Legal(s, events)
    decreases |events|
  {
    if events == [] then s else Run(Step(s, events[0]), events[1..])
  }
}
