/**
 What the samples of a stream are made of (internal/audio/stream.go:68-79, 385-390;
 internal/audio/mixer.go:132-138): sixteen bits each, the low byte first, the left
 channel before the right; and what a blend and a mean make of two.
 */
module StreamSamples {
  import opened GoInt
  import opened FrameClock
  import opened StreamModel
  import opened Wrappers

  /** A sample is its two bytes as a two's complement number. */
  predicate IsSample(v: int, low: int, high: int) {
    v == low + 256 * high - if high >= 128 then 65536 else 0
  }

  lemma FramesAreLeftAndRight(pcm: seq<Byte>, i: nat)
    requires |pcm| % 4 == 0 && 4 * i < |pcm|
    ensures 4 * |Decode(pcm)| == |pcm|
    ensures var f := Decode(pcm)[i];
      IsSample(f.left, pcm[4 * i], pcm[4 * i + 1]) && IsSample(f.right, pcm[4 * i + 2], pcm[4 * i + 3])
  {
  }

  /** Half way between two samples, to a whole number: the one nearer zero. */
  predicate IsMean(m: int, a: int, b: int) {
    if a + b >= 0 then 2 * m == a + b || 2 * m == a + b - 1 else 2 * m == a + b || 2 * m == a + b + 1
  }

  lemma MeansAreHalfWay(a: Frame, b: Frame)
    ensures IsMean(Mean(a, b).left, a.left, b.left) && IsMean(Mean(a, b).right, a.right, b.right)
  {
  }

  /** Step `i` of `n` from one sample to another is the same part of the way, cut off to a whole number. */
  predicate IsPart(v: int, from: int, to: int, i: nat, n: nat) {
    var gone, way := (v - from) * (n + 1), (to - from) * (i + 1);
    if way >= 0 then gone <= way < gone + n + 1 else gone - n - 1 < way <= gone
  }

  lemma RampsAreInStep(from: Frame, to: Frame, i: nat, n: nat)
    requires i < n
    ensures var f := RampFrame(from, to, i, n);
      IsPart(f.left, from.left, to.left, i, n) && IsPart(f.right, from.right, to.right, i, n)
  {
    SampleIsInStep(from.left, to.left, i, n);
    SampleIsInStep(from.right, to.right, i, n);
    hide RampSample;
  }

  lemma SampleIsInStep(from: Sample, to: Sample, i: nat, n: nat)
    requires i < n
    ensures IsPart(RampSample(from, to, i, n), from, to, i, n)
  {
    QuoBounds((to - from) * (i + 1), n + 1);
    if to >= from {
      SameSign(to - from, i + 1);
    } else {
      SameSign(from - to, i + 1);
      NegatedProduct(from - to, i + 1);
    }
  }

  lemma SameSign(a: nat, b: nat)
    ensures a * b >= 0
  {
  }
}
