/**
 Clips mixed into blocks (internal/audio/mixer.go:26-124). The blocks are whatever
 length the player wants; what is heard does not depend on how it is cut into them.
 */
module Mixer {
  import opened Wrappers

  /** A clip that sounds, from `at` on. The program knows it by its address. */
  datatype Clip = Clip(id: nat, pcm: seq<Sample>, at: nat)

  /** Two samples added, held within sixteen bits. */
  function Sum(a: Sample, b: Sample): Sample {
    var s := a + b;
    if s > 0x7fff then 0x7fff else if s < -0x8000 then -0x8000 else s
  }

  function Distance(a: int, b: int): nat {
    if a < b then b - a else a - b
  }

  /** Of all samples of sixteen bits the one nearest to the sum. */
  lemma SumIsTheNearestSample(a: Sample, b: Sample, s: Sample)
    ensures Distance(Sum(a, b), a + b) <= Distance(s, a + b)
    ensures -32768 <= a + b <= 32767 ==> Sum(a, b) == a + b
  {
  }

  /** What `read` copies into a block of `n` samples. */
  function Part(c: Clip, n: nat): (p: seq<Sample>)
    ensures |p| <= n
  {
    if c.at >= |c.pcm| then [] else if |c.pcm| - c.at <= n then c.pcm[c.at..] else c.pcm[c.at..c.at + n]
  }

  function Further(c: Clip, n: nat): Clip {
    c.(at := c.at + |Part(c, n)|)
  }

  predicate IsOver(c: Clip) {
    c.at >= |c.pcm|
  }

  function Added(block: seq<Sample>, part: seq<Sample>): (r: seq<Sample>)
    requires |part| <= |block|
    ensures |r| == |block|
  {
    seq(|block|, i requires 0 <= i < |block| => if i < |part| then Sum(block[i], part[i]) else block[i])
  }

  /** The clips added to a block one after another. */
  function MixedInto(block: seq<Sample>, clips: seq<Clip>): (r: seq<Sample>)
    ensures |r| == |block|
    decreases |clips|
  {
    if clips == [] then block else MixedInto(Added(block, Part(clips[0], |block|)), clips[1..])
  }

  function Quiet(n: nat): (block: seq<Sample>)
    ensures |block| == n
  {
    seq(n, _ => 0)
  }

  /** A block of `n` samples of everything that sounds. */
  function Mix(clips: seq<Clip>, n: nat): (block: seq<Sample>)
    ensures |block| == n
  {
    MixedInto(Quiet(n), clips)
  }

  /** The clips that still sound after it. */
  function Kept(clips: seq<Clip>, n: nat): seq<Clip> {
    if clips == [] then []
    else
      (if IsOver(Further(clips[0], n)) then [] else [Further(clips[0], n)]) + Kept(clips[1..], n)
  }

  // ---------- the sound of a moment ----------

  /** A clip's sample `t` from now, added to what is there. */
  function Voice(from: Sample, c: Clip, t: nat): Sample {
    if c.at + t < |c.pcm| then Sum(from, c.pcm[c.at + t]) else from
  }

  /** Every clip's sample `t` from now, added in the clips' order to what is there. */
  function Heard(from: Sample, clips: seq<Clip>, t: nat): Sample
    decreases |clips|
  {
    if clips == [] then from else Heard(Voice(from, clips[0], t), clips[1..], t)
  }

  lemma ClipsSoundOn(from: Sample, c: Clip, n: nat, t: nat)
    ensures var d := Further(c, n);
      Voice(from, c, n + t) == if IsOver(d) then from else Voice(from, d, t)
  {
  }

  lemma {:induction false} MixedIntoIsHeard(block: seq<Sample>, clips: seq<Clip>, t: nat)
    requires t < |block|
    ensures MixedInto(block, clips)[t] == Heard(block[t], clips, t)
    decreases |clips|
  {
    if clips != [] {
      MixedIntoIsHeard(Added(block, Part(clips[0], |block|)), clips[1..], t);
    }
  }

  lemma {:induction false} KeptAreHeardOn(from: Sample, clips: seq<Clip>, n: nat, t: nat)
    ensures Heard(from, Kept(clips, n), t) == Heard(from, clips, n + t)
    decreases |clips|
  {
    hide Voice, Further, IsOver;
    if clips != [] {
      var c, d := clips[0], Further(clips[0], n);
      KeptAreHeardOn(Voice(from, c, n + t), clips[1..], n, t);
      ClipsSoundOn(from, c, n, t);
      if IsOver(d) {
        assert Kept(clips, n) == Kept(clips[1..], n);
      } else {
        assert Kept(clips, n)[0] == d && Kept(clips, n)[1..] == Kept(clips[1..], n);
      }
    }
  }

  /**
   Two blocks in a row sound as one block of both their lengths: however the sound
   is cut into blocks, no sample of a clip is skipped, repeated or moved.
   */
  lemma BlocksSoundAsOne(clips: seq<Clip>, a: nat, b: nat)
    ensures Mix(clips, a + b) == Mix(clips, a) + Mix(Kept(clips, a), b)
  {
    hide Mix, Kept;
    var whole, first, second := Mix(clips, a + b), Mix(clips, a), Mix(Kept(clips, a), b);
    var parts := first + second;
    forall t | 0 <= t < a + b ensures whole[t] == parts[t] {
      MixIsHeard(clips, a + b, t);
      if t < a {
        MixIsHeard(clips, a, t);
        assert parts[t] == first[t];
      } else {
        MixIsHeard(Kept(clips, a), b, t - a);
        KeptAreHeardOn(0, clips, a, t - a);
        assert parts[t] == second[t - a];
      }
    }
    assert |whole| == |parts|;
  }

  lemma MixIsHeard(clips: seq<Clip>, n: nat, t: nat)
    requires t < n
    ensures Mix(clips, n)[t] == Heard(0, clips, t)
  {
    hide MixedInto, Heard;
    MixedIntoIsHeard(Quiet(n), clips, t);
  }

  lemma FurtherTwice(c: Clip, a: nat, b: nat)
    ensures var d := Further(c, a);
      if IsOver(d) then IsOver(Further(c, a + b)) else Further(d, b) == Further(c, a + b)
  {
  }

  lemma KeptOfMore(clips: seq<Clip>, n: nat)
    requires clips != []
    ensures var d, rest := Further(clips[0], n), Kept(clips[1..], n);
      Kept(clips, n) == if IsOver(d) then rest else [d] + rest
  {
    hide Further, IsOver;
  }

  /** And what is left to sound afterwards is the same. */
  lemma {:induction false} BlocksKeepAsOne(clips: seq<Clip>, a: nat, b: nat)
    ensures Kept(clips, a + b) == Kept(Kept(clips, a), b)
    decreases |clips|
  {
    if clips != [] {
      var c, d, rest := clips[0], Further(clips[0], a), Kept(clips[1..], a);
      BlocksKeepAsOne(clips[1..], a, b);
      FurtherTwice(c, a, b);
      KeptOfMore(clips, a + b);
      KeptOfMore(clips, a);
      hide Further, IsOver, Kept;
      if !IsOver(d) {
        assert ([d] + rest)[1..] == rest;
        KeptOfMore([d] + rest, b);
      }
    }
  }

  /** A clip alone comes out as it is, from its first sample to its last, and is then gone. */
  lemma AClipAloneIsHeardWhole(c: Clip)
    requires c.at == 0
    ensures Mix([c], |c.pcm|) == c.pcm && Kept([c], |c.pcm|) == []
  {
    forall t | 0 <= t < |c.pcm| ensures Mix([c], |c.pcm|)[t] == c.pcm[t] {
      MixIsHeard([c], |c.pcm|, t);
      assert Heard(Sum(0, c.pcm[t]), [c][1..], t) == c.pcm[t];
    }
    assert [c][1..] == [];
  }

  predicate HasRoom(x: int) {
    -0x8000 <= x < 0x8000
  }

  /** The order of three samples is not heard as long as no sum leaves sixteen bits; once one does, it may be. */
  lemma SumsCommuteWithRoom(a: Sample, b: Sample, c: Sample)
    ensures Sum(a, b) == Sum(b, a)
    ensures HasRoom(a + b) && HasRoom(b + c) ==> Sum(Sum(a, b), c) == Sum(a, Sum(b, c))
    ensures Sum(Sum(0x7fff, 1), -1) != Sum(0x7fff, Sum(1, -1))
  {
  }

  // ---------- the mixer ----------

  predicate Distinct(clips: seq<Clip>) {
    forall i, j | 0 <= i < j < |clips| :: clips[i].id != clips[j].id
  }

  class Mixing {
    var srcs: seq<Clip>

    constructor ()
      ensures srcs == []
    {
      srcs := [];
    }

    /** A clip starts, or starts again; no clip sounds twice at once. */
    method Start(id: nat, pcm: seq<Sample>)
      requires Distinct(srcs)
      modifies this
      ensures Distinct(srcs)
      ensures exists i :: 0 <= i < |srcs| && srcs[i].id == id && srcs[i].at == 0
      ensures forall i | 0 <= i < |old(srcs)| ::
                i < |srcs| && srcs[i] == if old(srcs)[i].id == id then old(srcs)[i].(at := 0) else old(srcs)[i]
      ensures |srcs| == |old(srcs)| || srcs == old(srcs) + [Clip(id, pcm, 0)]
    {
      for i := 0 to |srcs|
        invariant srcs == old(srcs) && forall k | 0 <= k < i :: srcs[k].id != id
      {
        if srcs[i].id == id {
          srcs := srcs[i := srcs[i].(at := 0)];
          assert srcs[i].id == id && srcs[i].at == 0;
          return;
        }
      }
      srcs := srcs + [Clip(id, pcm, 0)];
      assert srcs[|srcs| - 1].id == id;
    }

    /** Fills a block with everything that sounds, and lets go of what has ended. */
    method Next(block: array<Sample>) returns (sounds: bool)
      modifies this, block
      ensures sounds == (old(srcs) != [])
      ensures !sounds ==> srcs == old(srcs) && block[..] == old(block[..])
      ensures sounds ==> block[..] == Mix(old(srcs), block.Length) && srcs == Kept(old(srcs), block.Length)
    {
      if |srcs| == 0 { return false; }
      Clear(block);
      srcs := AddAll(block, srcs);
      return true;
    }
  }

  lemma OneByOne(block: seq<Sample>, clips: seq<Clip>)
    requires clips != []
    ensures MixedInto(block, clips) == MixedInto(Added(block, Part(clips[0], |block|)), clips[1..])
    ensures Kept(clips, |block|) ==
            (if IsOver(Further(clips[0], |block|)) then [] else [Further(clips[0], |block|)])
            + Kept(clips[1..], |block|)
  {
  }

  lemma NoClips(block: seq<Sample>)
    ensures MixedInto(block, []) == block && Kept([], |block|) == []
  {
  }

  /** Adds the clips to a block in turn, and gives back those that go on. */
  method AddAll(block: array<Sample>, clips: seq<Clip>) returns (keep: seq<Clip>)
    modifies block
    ensures block[..] == MixedInto(old(block[..]), clips) && keep == Kept(clips, block.Length)
  {
    hide Added, Part, Further, IsOver, MixedInto, Kept;
    keep := [];
    var left := clips;
    while left != []
      invariant MixedInto(block[..], left) == MixedInto(old(block[..]), clips)
      invariant keep + Kept(left, block.Length) == Kept(clips, block.Length)
      decreases |left|
    {
      var c, rest := left[0], Kept(left[1..], block.Length);
      OneByOne(block[..], left);
      AddInto(block, Part(c, block.Length));
      c := Further(c, block.Length);
      assert keep + ([c] + rest) == keep + [c] + rest && keep + ([] + rest) == keep + rest;
      if !IsOver(c) {
        keep := keep + [c];
      }
      left := left[1..];
    }
    NoClips(block[..]);
    assert keep + [] == keep;
  }

  method Clear(block: array<Sample>)
    modifies block
    ensures block[..] == Quiet(block.Length)
  {
    for i := 0 to block.Length
      invariant forall k | 0 <= k < i :: block[k] == 0
    {
      block[i] := 0;
    }
  }

  method AddInto(block: array<Sample>, part: seq<Sample>)
    requires |part| <= block.Length
    modifies block
    ensures block[..] == Added(old(block[..]), part)
  {
    for i := 0 to |part|
      invariant forall k | 0 <= k < block.Length ::
                  block[k] == if k < i then Sum(old(block[k]), part[k]) else old(block[k])
    {
      block[i] := Sum(block[i], part[i]);
    }
  }
}
