/**
 The two conversions between a count of frames and a duration in nanoseconds
 (internal/audio/stream.go, frameTime and frameCount).
 */
module FrameClock {
  import opened GoInt

  const SECOND := 1_000_000_000

  function FrameTime(rate: int, n: int): (d: int)
    requires rate > 0
  {
    Quo(n, rate) * SECOND + Quo(Rem(n, rate) * SECOND, rate)
  }

  function FrameCount(rate: int, d: int): (n: int)
    requires rate > 0
  {
    Quo(d, SECOND) * rate + Quo(Rem(d, SECOND) * rate, SECOND)
  }

  /** Splitting a dividend into whole multiples and the rest loses nothing. */
  lemma SplitDivision(x: int, unit: int, scale: int)
    requires x >= 0 && unit > 0 && scale > 0
    ensures (x / unit) * scale + ((x % unit) * scale) / unit == (x * scale) / unit
  {
    var q, m := x / unit, x % unit;
    calc {
      x * scale;
      (q * unit + m) * scale;
      (q * scale) * unit + m * scale;
    }
    DivAddMultiple(q * scale, m * scale, unit);
  }

  lemma QuoOfScaledPositive(x: nat, unit: int, scale: int)
    requires unit > 0 && scale > 0
    ensures Quo(x, unit) * scale + Quo(Rem(x, unit) * scale, unit) == Quo(x * scale, unit)
  {
    SplitDivision(x, unit, scale);
    var m := x % unit;
    assert Rem(x, unit) == m;
    Product(x, scale);
    Product(m, scale);
  }

  lemma Product(a: nat, b: nat)
    ensures a * b >= 0
  {
  }

  lemma QuoOfScaled(x: int, unit: int, scale: int)
    requires unit > 0 && scale > 0
    ensures Quo(x, unit) * scale + Quo(Rem(x, unit) * scale, unit) == Quo(x * scale, unit)
  {
    if x >= 0 {
      QuoOfScaledPositive(x, unit, scale);
    } else {
      var y := -x;
      QuoOfScaledPositive(y, unit, scale);
      QuoOdd(y, unit);
      RemOdd(y, unit);
      NegatedProduct(Quo(y, unit), scale);
      NegatedProduct(Rem(y, unit), scale);
      NegatedProduct(y, scale);
      QuoOdd(Rem(y, unit) * scale, unit);
      QuoOdd(y * scale, unit);
    }
  }

  lemma NegatedProduct(a: int, b: int)
    ensures (-a) * b == -(a * b)
  {
  }

  /** Counting frames truncates the exact product once, at every rate. */
  lemma FrameCountIsExact(rate: int, d: int)
    requires rate > 0
    ensures FrameCount(rate, d) == Quo(d * rate, SECOND)
  {
    QuoOfScaled(d, SECOND, rate);
  }

  lemma FrameTimeIsExact(rate: int, n: int)
    requires rate > 0
    ensures FrameTime(rate, n) == Quo(n * SECOND, rate)
  {
    QuoOfScaled(n, rate, SECOND);
  }

  /** No step of frameCount leaves 64 bits, whatever duration it is given. */
  lemma FrameCountFits(rate: int, d: int)
    requires rate == 48000 || rate == 44100
    requires FitsInt64(d)
    ensures FitsInt64(Quo(d, SECOND)) && FitsInt64(Rem(d, SECOND))
    ensures FitsInt64(Quo(d, SECOND) * rate)
    ensures FitsInt64(Rem(d, SECOND) * rate)
    ensures FitsInt64(FrameCount(rate, d))
  {
    QuoBounds(d, SECOND);
  }

  /**
   No step of frameTime leaves 64 bits when the exact answer fits them: the two
   halves it adds have the sign of the answer and are no larger than it.
   */
  lemma FrameTimeFits(rate: int, n: int)
    requires 0 < rate <= 48000
    requires FitsInt64(n) && FitsInt64(Quo(n * SECOND, rate))
    ensures FitsInt64(Quo(n, rate) * SECOND)
    ensures FitsInt64(Rem(n, rate) * SECOND)
    ensures FitsInt64(FrameTime(rate, n))
  {
    FrameTimeIsExact(rate, n);
    if n >= 0 {
      FrameTimeFitsPositive(rate, n);
    } else {
      QuoOdd(n, rate);
      RemOdd(n, rate);
      Odd(rate, n);
      FrameTimeIsExact(rate, -n);
      NegatedProduct(Quo(n, rate), SECOND);
      NegatedProduct(Rem(n, rate), SECOND);
      FrameTimeFitsPositive(rate, -n);
    }
  }

  lemma FrameTimeFitsPositive(rate: int, n: nat)
    requires 0 < rate <= 48000
    ensures 0 <= Quo(n, rate) * SECOND <= FrameTime(rate, n)
    ensures 0 <= Rem(n, rate) * SECOND < 48000 * SECOND
  {
    QuoBounds(n, rate);
  }

  /**
   Going to a duration and back gives the same frame exactly when the duration
   was a whole number of nanoseconds, and otherwise the frame before it.
   */
  lemma RoundTripOfPositive(rate: int, n: nat)
    requires 0 < rate <= SECOND
    ensures FrameCount(rate, FrameTime(rate, n)) ==
            if (n * SECOND) % rate == 0 then n else n - 1
  {
    FrameTimeIsExact(rate, n);
    var t, e := (n * SECOND) / rate, (n * SECOND) % rate;
    assert n * SECOND == rate * t + e;
    assert t >= 0 by {
      if t < 0 { MulMono(rate, t, -1); }
    }
    FrameCountIsExact(rate, t);
    assert t * rate == n * SECOND - e;
    assert t * rate >= 0;
    if e == 0 {
      DivIsUnique(t * rate, SECOND, n);
    } else {
      DivIsUnique(t * rate, SECOND, n - 1);
    }
  }

  lemma Odd(rate: int, n: int)
    requires rate > 0
    ensures FrameTime(rate, -n) == -FrameTime(rate, n)
    ensures FrameCount(rate, -n) == -FrameCount(rate, n)
  {
    hide FrameTime, FrameCount, Quo;
    FrameTimeIsExact(rate, n);
    FrameTimeIsExact(rate, -n);
    FrameCountIsExact(rate, n);
    FrameCountIsExact(rate, -n);
    QuoOdd(n * SECOND, rate);
    QuoOdd(n * rate, SECOND);
    assert (-n) * SECOND == -(n * SECOND) && (-n) * rate == -(n * rate);
  }

  lemma RoundTrip(rate: int, n: int)
    requires 0 < rate <= SECOND
    ensures FrameCount(rate, FrameTime(rate, n)) ==
            if (Abs(n) * SECOND) % rate == 0 then n
            else if n > 0 then n - 1 else n + 1
  {
    RoundTripOfPositive(rate, Abs(n));
    if n < 0 {
      Odd(rate, -n);
      Odd(rate, FrameTime(rate, -n));
    } else if n == 0 {
      assert Abs(n) * SECOND == 0;
    }
  }

  /** The frames that survive the trip at the speaker's rate: one in three. */
  lemma RoundTripAt48000(n: int)
    ensures FrameCount(48000, FrameTime(48000, n)) == n <==> n % 3 == 0
  {
    hide FrameTime, FrameCount;
    RoundTrip(48000, n);
    var m := Abs(n);
    var x, a := m * SECOND, 20833 * m + m / 3;
    assert x == 48000 * a + 16000 * (m % 3);
    DivIsUnique(x, 48000, a);
    MultipleOfAbs(n, 3);
  }

  /** 441 and 325 share no factor, so 441 divides 325 * r only when r is 0. */
  lemma NoCommonFactor(r: nat, k: int)
    requires r < 441 && 32500 * r == 44100 * k
    ensures r == 0
  {
    assert r == 441 * (19 * k - 14 * r);
  }

  /** The frames that survive the trip at the Bluetooth rate: one in 441. */
  lemma RoundTripAt44100(n: int)
    ensures FrameCount(44100, FrameTime(44100, n)) == n <==> n % 441 == 0
  {
    hide FrameTime, FrameCount;
    RoundTrip(44100, n);
    var m := Abs(n);
    var q, r := m / 441, m % 441;
    var x, k := m * SECOND, (m * SECOND) / 44100;
    assert x == 44100 * k + x % 44100;
    assert x == 44100 * (10_000_000 * q + 22675 * r) + 32500 * r;
    if x % 44100 == 0 {
      NoCommonFactor(r, k - (10_000_000 * q + 22675 * r));
    } else if r == 0 {
      DivIsUnique(x, 44100, 10_000_000 * q);
    }
    MultipleOfAbs(n, 441);
  }

  lemma MultipleOfAbs(n: int, k: int)
    requires k > 0
    ensures Abs(n) % k == 0 <==> n % k == 0
  {
    var a, b := n / k, (-n) / k;
    assert n == k * a + n % k && -n == k * b + (-n) % k;
    if n % k == 0 {
      DivIsUnique(-n, k, -a);
    }
    if (-n) % k == 0 {
      DivIsUnique(n, k, -b);
    }
  }

  /** Counting never runs ahead of the clock: the two maps keep order. */
  lemma FrameCountIsMonotone(rate: int, d: int, e: int)
    requires rate > 0 && d <= e
    ensures FrameCount(rate, d) <= FrameCount(rate, e)
  {
    FrameCountIsExact(rate, d);
    FrameCountIsExact(rate, e);
    MulMono(rate, d, e);
    QuoMono(d * rate, e * rate, SECOND);
  }

  lemma FrameCountOfSeconds(rate: int, k: nat)
    requires rate > 0
    ensures FrameCount(rate, k * SECOND) == k * rate
  {
    assert Quo(k * SECOND, SECOND) == k && Rem(k * SECOND, SECOND) == 0;
  }
}
