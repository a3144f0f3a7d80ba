/**
 What becomes of a reading that is published (internal/esphome/state.go:63-69, 249-275),
 told field by field: what is cached of it, whether it is sent, and as what message.
 */
module PublishedNews {
  import opened PublishedModel
  import opened PublishedProofs
  import W = ProtobufModel
  import P = ProtobufProofs
  import opened Wrappers

  // ---------- which readings are news ----------

  /** The exponent of a 32-bit float is all ones, and its fraction is not zero. */
  predicate NotANumber(bits: nat) {
    bits / 0x80_0000 % 0x100 == 0xff && bits % 0x80_0000 != 0
  }

  /** Two bit patterns of the same number: equal, or the two zeros. */
  predicate SameNumber(a: nat, b: nat) {
    && !NotANumber(a) && !NotANumber(b)
    && (a == b || (a in {0, 0x8000_0000} && b in {0, 0x8000_0000}))
  }

  predicate SameFields(a: Reading, b: Reading) {
    && a.key == b.key && a.text == b.text && a.muted == b.muted && a.state == b.state && a.ok == b.ok
    && a.kind == b.kind
  }

  /** A reading the cache has not: its key is new, or some field of it, or it is not a number. */
  predicate IsNews(published: map<nat, Reading>, r: Reading) {
    r.key !in published || !SameFields(published[r.key], r) || !SameNumber(published[r.key].value, r.value)
  }

  predicate InBits(bits: nat) {
    bits < 0x1_0000_0000
  }

  lemma FloatsAreCompared(a: nat, b: nat)
    requires InBits(a) && InBits(b)
    ensures IsNaN(a) <==> NotANumber(a)
    ensures SameFloat(a, b) <==> SameNumber(a, b)
  {
    NaNIsNotANumber(a);
    NaNIsNotANumber(b);
  }

  lemma NaNIsNotANumber(a: nat)
    ensures IsNaN(a) <==> NotANumber(a)
  {
    var low, high := a % 0x80_0000, a / 0x80_0000;
    assert a % 0x8000_0000 == high % 0x100 * 0x80_0000 + low;
  }

  lemma NewsIsWhatDiffers(published: map<nat, Reading>, r: Reading)
    requires InBits(r.value) && (r.key in published ==> InBits(published[r.key].value))
    ensures IsNews(published, r) <==> !(r.key in published && Same(published[r.key], r))
  {
    hide IsNaN, NotANumber, SameFloat, SameNumber;
    if r.key in published {
      FloatsAreCompared(published[r.key].value, r.value);
    }
  }

  /** Those of some readings that are news, in their order. */
  function News(published: map<nat, Reading>, rs: seq<Reading>): seq<Reading> {
    if rs == [] then []
    else News(published, rs[..|rs| - 1]) + if IsNews(published, rs[|rs| - 1]) then [rs[|rs| - 1]] else []
  }

  // ---------- what is cached ----------

  /** Each reading is cached if it is news, and every other key's reading is as it was. */
  predicate Cached(before: map<nat, Reading>, after: map<nat, Reading>, rs: seq<Reading>) {
    && (forall i | 0 <= i < |rs| :: rs[i].key in after &&
          after[rs[i].key] == if IsNews(before, rs[i]) then rs[i] else before[rs[i].key])
    && (forall k | k in before && (forall i | 0 <= i < |rs| :: rs[i].key != k) :: k in after && after[k] == before[k])
    && (forall k | k in after :: k in before || exists i :: 0 <= i < |rs| && rs[i].key == k)
  }

  lemma OthersAreAsBefore(before: map<nat, Reading>, after: map<nat, Reading>, rs: seq<Reading>, key: nat)
    requires Cached(before, after, rs) && forall i | 0 <= i < |rs| :: rs[i].key != key
    ensures key in after <==> key in before
    ensures key in before ==> after[key] == before[key]
  {
    hide IsNews;
  }

  lemma OneMoreIsAbsorbed(published: map<nat, Reading>, rs: seq<Reading>)
    requires rs != []
    ensures var less, r := rs[..|rs| - 1], rs[|rs| - 1];
      var (p, changed) := Absorb(published, less);
      && Absorb(published, rs) ==
         (if r.key in p && Same(p[r.key], r) then (p, changed) else (p[r.key := r], changed + [r]))
      && News(published, rs) == News(published, less) + if IsNews(published, r) then [r] else []
  {
    hide IsNews, Same;
  }

  lemma CachesOneMore(before: map<nat, Reading>, p: map<nat, Reading>, less: seq<Reading>, r: Reading)
    requires Cached(before, p, less) && forall i | 0 <= i < |less| :: less[i].key != r.key
    ensures Cached(before, if IsNews(before, r) then p[r.key := r] else p, less + [r])
  {
    hide SameFields, SameNumber;
    var rs, q := less + [r], if IsNews(before, r) then p[r.key := r] else p;
    OldNewsIsCached(before, r);
    forall i | 0 <= i < |rs|
      ensures rs[i].key in q && q[rs[i].key] == if IsNews(before, rs[i]) then rs[i] else before[rs[i].key]
    {
      if i < |less| {
        assert rs[i] == less[i];
      }
    }
    forall k | k in before && (forall i | 0 <= i < |rs| :: rs[i].key != k) ensures k in q && q[k] == before[k] {
      assert rs[|less|].key == r.key;
      assert forall i | 0 <= i < |less| :: rs[i] == less[i];
    }
    forall k | k in q ensures k in before || exists i :: 0 <= i < |rs| && rs[i].key == k {
      if k == r.key {
        assert rs[|less|].key == k;
      } else if k !in before {
        var i :| 0 <= i < |less| && less[i].key == k;
        assert rs[i].key == k;
      }
    }
  }

  lemma OldNewsIsCached(published: map<nat, Reading>, r: Reading)
    ensures !IsNews(published, r) ==> r.key in published && SameFields(published[r.key], r)
                                      && SameNumber(published[r.key].value, r.value)
  {
  }

  lemma OneMoreIsCached(before: map<nat, Reading>, p: map<nat, Reading>, less: seq<Reading>, r: Reading)
    requires Cached(before, p, less) && forall i | 0 <= i < |less| :: less[i].key != r.key
    requires InBits(r.value) && (r.key in before ==> InBits(before[r.key].value))
    ensures r.key in p && Same(p[r.key], r) <==> !IsNews(before, r)
    ensures Cached(before, if IsNews(before, r) then p[r.key := r] else p, less + [r])
  {
    OthersAreAsBefore(before, p, less, r.key);
    NewsIsWhatDiffers(before, r);
    CachesOneMore(before, p, less, r);
    hide Cached, IsNews, Same;
  }

  lemma NothingIsAbsorbed(published: map<nat, Reading>)
    ensures Absorb(published, []) == (published, []) && News(published, []) == [] && Cached(published, published, [])
  {
  }

  lemma {:induction false} WhatIsAbsorbed(published: map<nat, Reading>, rs: seq<Reading>)
    requires Distinct(rs) && forall i | 0 <= i < |rs| :: InBits(rs[i].value)
    requires forall k | k in published :: InBits(published[k].value)
    ensures var (p, changed) := Absorb(published, rs); changed == News(published, rs) && Cached(published, p, rs)
    decreases |rs|
  {
    hide IsNews, Same, Absorb, News, Cached;
    if rs == [] {
      NothingIsAbsorbed(published);
    } else {
      var less, r := rs[..|rs| - 1], rs[|rs| - 1];
      assert rs == less + [r];
      assert forall i | 0 <= i < |less| :: less[i] == rs[i];
      WhatIsAbsorbed(published, less);
      OneMoreIsAbsorbed(published, rs);
      OneMoreIsCached(published, Absorb(published, less).0, less, r);
    }
  }

  /**
   Readings of distinct keys that are published end in the cache, every field of each,
   and its value as the same number, or as the same bits if it is none; other keys keep
   theirs. Of them, a subscriber that stays is sent those that were news, in order.
   */
  lemma WhatIsPublished(s: Server, rs: seq<Reading>, room: map<nat, nat>, c: nat)
    requires Coherent(s) && Distinct(rs) && forall i | 0 <= i < |rs| :: InBits(rs[i].value)
    requires forall k | k in s.published :: InBits(s.published[k].value)
    ensures var p := Publish(s, rs, room).published;
      && (forall i | 0 <= i < |rs| :: rs[i].key in p && SameFields(p[rs[i].key], rs[i])
            && (p[rs[i].key].value == rs[i].value || SameNumber(p[rs[i].key].value, rs[i].value)))
      && (forall k | k in s.published && (forall i | 0 <= i < |rs| :: rs[i].key != k) ::
            k in p && p[k] == s.published[k])
    ensures c in Publish(s, rs, room).conns ==>
              Publish(s, rs, room).known[c].log == s.known[c].log +
                (if s.known[c].states then EncodeAll(News(s.published, rs)) else [])
  {
    hide Absorb, EncodeAll, IsNews, Coherent, SameNumber;
    WhatIsAbsorbed(s.published, rs);
    var p := Publish(s, rs, room).published;
    assert p == Absorb(s.published, rs).0 by { PublishKeepsTheCache(s, rs, room); }
    forall i | 0 <= i < |rs|
      ensures rs[i].key in p && SameFields(p[rs[i].key], rs[i])
              && (p[rs[i].key].value == rs[i].value || SameNumber(p[rs[i].key].value, rs[i].value))
    {
      OldNewsIsCached(s.published, rs[i]);
    }
    if c in Publish(s, rs, room).conns {
      OnlyChangesAreSent(s, rs, room, c);
    }
  }

  lemma PublishKeepsTheCache(s: Server, rs: seq<Reading>, room: map<nat, nat>)
    ensures Publish(s, rs, room).published == Absorb(s.published, rs).0
  {
    hide Absorb, EncodeAll;
  }

  // ---------- what a state frame says ----------

  function Key(r: Reading): W.Entry { W.Entry(1, 5, r.key, []) }

  function Bits(field: nat, v: nat): W.Entry { W.Entry(field, 5, v, []) }

  function Number(field: nat, v: nat): W.Entry { W.Entry(field, 0, v, []) }

  function Flag(field: nat, on: bool): W.Entry { W.Entry(field, 0, if on then 1 else 0, []) }

  function Chars(field: nat, text: seq<Byte>): W.Entry { W.Entry(field, 2, 0, text) }

  predicate IsOn(r: Reading) {
    r.value !in {0, 0x8000_0000}
  }

  /** The type of the message about each kind of entity, and its fields. */
  function Says(r: Reading): (nat, seq<W.Entry>) {
    match r.kind
    case Binary => (21, [Key(r), Flag(2, IsOn(r)), Flag(3, !r.ok)])
    case Sensor => (25, [Key(r), Bits(2, r.value), Flag(3, !r.ok)])
    case Switch => (26, [Key(r), Flag(2, IsOn(r))])
    case TextSensor => (27, [Key(r), Chars(2, r.text), Flag(3, !r.ok)])
    case Number => (50, [Key(r), Bits(2, r.value), Flag(3, !r.ok)])
    case Select => (53, [Key(r), Chars(2, r.text)])
    case Media => (64, [Key(r), Number(2, r.state), Bits(3, r.value), Flag(4, r.muted)])
    case Text => (98, [Key(r), Chars(2, r.text), Flag(3, false)])
  }

  lemma {:induction false} EntriesInTurn(calls: seq<W.Call>)
    requires P.Writable(calls)
    ensures P.EntriesOf(calls) == seq(|calls|, i requires 0 <= i < |calls| => P.EntryOf(calls[i]))
    decreases |calls|
  {
    hide P.EntryOf;
    if calls != [] {
      EntriesInTurn(calls[1..]);
    }
  }

  /** Every state frame is a message of the type and the fields that tell of its kind of entity. */
  lemma WhatAStateFrameSays(r: Reading)
    requires Typed(r)
    ensures Encode(r).StateOf? && Encode(r).key == r.key && Encode(r).msgType == Says(r).0
    ensures W.Walk(Encode(r).payload) == (Says(r).1, None)
  {
    hide W.Walk, W.Written;
    var calls := FieldsOf(r);
    assert P.Writable(calls);
    P.WalkUndoesWriting(calls);
    EntriesInTurn(calls);
    assert P.EntriesOf(calls) == Says(r).1;
  }
}
