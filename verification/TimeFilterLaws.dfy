/**
 What a measurement does to the estimate, told by the equations it satisfies
 (internal/sendspin/timefilter.go:49-111): a line through the first two, and from the
 third on the weighing that leaves the least variance.
 */
module TimeFilterLaws {
  import opened TimeFilterModel
  import opened TimeFilterProofs

  /** The first measurement is believed as it is, and says nothing of a drift. */
  lemma TheFirstIsBelieved(f: Filter, measurement: int, maxError: int, taken: int)
    requires f.Valid() && f.count <= 0 && taken > f.lastUpdate
    ensures var g := Update(f, measurement, maxError, taken);
      && g.offset == measurement as real && g.drift == 0.0 && g.lastUpdate == taken && g.count == f.count + 1
      && g.offsetCovariance == Bounded((maxError * maxError) as real / 4.0)
      && g.current == Element(taken, g.offset, 0.0, false)
  {
    NoiseIs(maxError);
  }

  /** The second fixes the line the first two lie on. */
  lemma TheSecondFixesALine(f: Filter, measurement: int, maxError: int, taken: int)
    requires f.Valid() && f.count == 1 && taken > f.lastUpdate
    ensures var g, dt := Update(f, measurement, maxError, taken), (taken - f.lastUpdate) as real;
      var noise := (maxError * maxError) as real / 4.0;
      && g.offset == measurement as real && f.offset + g.drift * dt == measurement as real
      && g.lastUpdate == taken && g.count == 2
      && g.offsetCovariance == Bounded(noise) && g.driftCovariance * (dt * dt) == f.offsetCovariance.v + noise
      && g.current == Element(taken, g.offset, g.drift, false)
  {
    NoiseIs(maxError);
    var dt := (taken - f.lastUpdate) as real;
    PositiveProduct(dt, dt);
  }

  lemma NoiseIs(maxError: int)
    ensures Noise(maxError) == (maxError * maxError) as real / 4.0
  {
    var x := maxError as real;
    assert (maxError * maxError) as real == x * x by { SquareAsReal(maxError); }
    assert (x * 0.5) * (x * 0.5) == x * x / 4.0;
  }

  lemma SquareAsReal(x: int)
    ensures (x * x) as real == x as real * x as real
  {
  }

  /** What is expected of a measurement, and how surely, `dt` after the last. */
  datatype Forecast = Forecast(offset: real, p: real, both: real, drift: real)

  function Forecasted(f: Filter, dt: real): Forecast
    requires f.offsetCovariance.Bounded?
  {
    Forecast(f.offset + f.drift * dt,
             f.offsetCovariance.v + 2.0 * f.offsetDriftCovariance * dt + f.driftCovariance * dt * dt,
             f.offsetDriftCovariance + f.driftCovariance * dt,
             f.driftCovariance + dt * 0.0000000000000000000001)
  }

  /** At a hundred counted, a measurement three times its error away makes what is known four times as unsure. */
  function Doubted(f: Filter, e: Forecast, measurement: int, maxError: int): Forecast {
    var off := measurement as real - e.offset;
    if f.count >= 100 && (off > 3.0 * maxError as real || -off > 3.0 * maxError as real)
    then e.(p := 4.0 * e.p, both := 4.0 * e.both, drift := 4.0 * e.drift) else e
  }

  predicate Weighed(e: Forecast, s: real, residual: real, f: Filter, g: Filter)
    requires g.offsetCovariance.Bounded?
  {
    && (g.offset - e.offset) * s == e.p * residual
    && (g.drift - f.drift) * s == e.both * residual
    && (e.p - g.offsetCovariance.v) * s == e.p * e.p
    && (e.both - g.offsetDriftCovariance) * s == e.both * e.p
    && (e.drift - g.driftCovariance) * s == e.both * e.both
  }

  lemma ForecastIsPrior(f: Filter, measurement: int, maxError: int, taken: int)
    requires f.offsetCovariance.Bounded? && f.count >= 2
    ensures var e := Forecasted(f, (taken - f.lastUpdate) as real);
      var d, prior := Doubted(f, e, measurement, maxError), Prior(f, measurement, maxError, taken);
      && e.offset == Expected(f, taken) == d.offset
      && prior == Covariance(d.p, d.both, d.drift)
  {
  }

  /** A shift by a gain `p / s` of `x`, and a loss by one. */
  lemma ShiftedBy(b: real, a: real, p: real, u: real, x: real, s: real)
    requires s * u == 1.0 && b == a + (p * u) * x
    ensures (b - a) * s == p * x
  {
    assert ((p * u) * x) * s == p * x * (s * u);
  }

  lemma ReducedBy(b: real, a: real, p: real, u: real, x: real, s: real)
    requires s * u == 1.0 && b == a - (p * u) * x
    ensures (a - b) * s == p * x
  {
    assert ((p * u) * x) * s == p * x * (s * u);
  }

  /** The fields of the filter, moved by the products of gains. */
  lemma LaterMoves(f: Filter, measurement: int, maxError: int, taken: int, c: Covariance, residual: real)
    requires f.offsetCovariance.Bounded? && c == Prior(f, measurement, maxError, taken)
    requires residual == measurement as real - Expected(f, taken)
    ensures var g, noise := Later(f, measurement, maxError, taken), Noise(maxError);
      && g.offsetCovariance.Bounded?
      && g.offset == Expected(f, taken) + OffsetGain(c, noise) * residual
      && g.drift == f.drift + DriftGain(c, noise) * residual
      && g.offsetCovariance.v == c.offset - OffsetGain(c, noise) * c.offset
      && g.offsetDriftCovariance == c.both - DriftGain(c, noise) * c.offset
      && g.driftCovariance == c.drift - DriftGain(c, noise) * c.both
      && g.lastUpdate == taken && g.count == (if f.count < 100 then f.count + 1 else f.count)
      && g.current == Element(taken, g.offset, g.drift, g.drift * g.drift > 4.0 * g.driftCovariance)
  {
    hide Prior, Expected, Noise, OffsetGain, DriftGain;
  }

  lemma WeighedByGains(e: Forecast, u: real, s: real, residual: real, f: Filter, g: Filter)
    requires s * u == 1.0 && g.offsetCovariance.Bounded?
    requires g.offset == e.offset + (e.p * u) * residual && g.drift == f.drift + (e.both * u) * residual
    requires g.offsetCovariance.v == e.p - (e.p * u) * e.p
    requires g.offsetDriftCovariance == e.both - (e.both * u) * e.p
    requires g.driftCovariance == e.drift - (e.both * u) * e.both
    ensures Weighed(e, s, residual, f, g)
  {
    ShiftedBy(g.offset, e.offset, e.p, u, residual, s);
    ShiftedBy(g.drift, f.drift, e.both, u, residual, s);
    ReducedBy(g.offsetCovariance.v, e.p, e.p, u, e.p, s);
    ReducedBy(g.offsetDriftCovariance, e.both, e.both, u, e.p, s);
    ReducedBy(g.driftCovariance, e.drift, e.both, u, e.both, s);
  }

  /**
   A later measurement is weighed against what was expected: with P and B the
   expected variance and covariance and S their sum with the noise, the offset moves
   by P/S of what was not expected, the drift by B/S of it, and the covariances give
   up P²/S, BP/S and B²/S.
   */
  lemma ALaterOneIsWeighed(f: Filter, measurement: int, maxError: int, taken: int)
    requires f.Valid() && f.count >= 2 && taken > f.lastUpdate
    ensures var g := Update(f, measurement, maxError, taken);
      var e := Doubted(f, Forecasted(f, (taken - f.lastUpdate) as real), measurement, maxError);
      var s := RealMax(e.p + (maxError * maxError) as real / 4.0, 0.000000001);
      && g.offsetCovariance.Bounded? && Weighed(e, s, measurement as real - e.offset, f, g)
      && g.lastUpdate == taken && g.count == (if f.count < 100 then f.count + 1 else f.count)
      && g.current == Element(taken, g.offset, g.drift, g.drift * g.drift > 4.0 * g.driftCovariance)
  {
    hide Prior, Forecasted, Doubted, Noise, Expected, Later, Weighed, Uncertainty;
    NoiseIs(maxError);
    ForecastIsPrior(f, measurement, maxError, taken);
    var c, noise := Prior(f, measurement, maxError, taken), Noise(maxError);
    var residual := measurement as real - Expected(f, taken);
    InverseOfTheSum(c, noise);
    LaterMoves(f, measurement, maxError, taken, c, residual);
    var e := Doubted(f, Forecasted(f, (taken - f.lastUpdate) as real), measurement, maxError);
    WeighedByGains(e, Uncertainty(c, noise), RealMax(c.offset + noise, LEAST_VARIANCE), residual, f,
                   Later(f, measurement, maxError, taken));
  }

  lemma InverseOfTheSum(c: Covariance, noise: real)
    ensures RealMax(c.offset + noise, LEAST_VARIANCE) * Uncertainty(c, noise) == 1.0
  {
  }

  /** The variance that weighing what was measured by `w`, and what was expected by the rest, leaves. */
  function VarianceWith(w: real, expected: real, measured: real): real {
    (1.0 - w) * (1.0 - w) * expected + w * w * measured
  }

  /** The variance `left` of `p` gives up p²/(p + noise). */
  predicate IsLeft(p: real, noise: real, left: real) {
    (p - left) * (p + noise) == p * p
  }

  lemma NoOtherWeightIsBetter(p: real, noise: real, left: real, w: real)
    requires p >= 0.0 && noise > 0.0 && IsLeft(p, noise, left)
    ensures left <= VarianceWith(w, p, noise)
  {
    var s := p + noise;
    var other := VarianceWith(w, p, noise);
    var d := w * s - p;
    assert other == p - 2.0 * w * p + w * w * s;
    assert other * s == p * s - 2.0 * (w * s) * p + (w * s) * (w * s) by {
      assert (w * w * s) * s == (w * s) * (w * s);
      assert (2.0 * w * p) * s == 2.0 * (w * s) * p;
    }
    assert left * s == p * s - p * p;
    assert d * d == (w * s) * (w * s) - 2.0 * (w * s) * p + p * p;
    assert other * s - left * s == d * d;
    SquareIsPositive(d);
    Cancel(left, other, s);
  }

  lemma WhatTheWeightLeaves(f: Filter, measurement: int, maxError: int, taken: int)
    requires Sound(f) && f.count >= 2 && taken > f.lastUpdate && maxError > 0
    ensures var g, noise := Update(f, measurement, maxError, taken), Noise(maxError);
      var e := Doubted(f, Forecasted(f, (taken - f.lastUpdate) as real), measurement, maxError);
      g.offsetCovariance.Bounded? && e.p >= 0.0 && noise > 0.0 && IsLeft(e.p, noise, g.offsetCovariance.v)
  {
    ALaterOneIsWeighed(f, measurement, maxError, taken);
    ForecastIsPrior(f, measurement, maxError, taken);
    PriorIsSemiDefinite(f, measurement, maxError, taken);
    NoiseIs(maxError);
    NoiseOfAMicrosecond(maxError);
    hide Prior, Forecasted, Doubted, Update, Noise;
  }

  /**
   No other weighing of what was expected against what was measured would have left
   the offset more certain.
   */
  lemma TheWeightIsTheBest(f: Filter, measurement: int, maxError: int, taken: int, w: real)
    requires Sound(f) && f.count >= 2 && taken > f.lastUpdate && maxError > 0
    ensures var g := Update(f, measurement, maxError, taken);
      var e := Doubted(f, Forecasted(f, (taken - f.lastUpdate) as real), measurement, maxError);
      g.offsetCovariance.Bounded?
      && g.offsetCovariance.v <= VarianceWith(w, e.p, (maxError * maxError) as real / 4.0)
  {
    WhatTheWeightLeaves(f, measurement, maxError, taken);
    NoiseIs(maxError);
    hide Forecasted, Doubted, Update, Noise, VarianceWith, IsLeft, Sound;
    var e := Doubted(f, Forecasted(f, (taken - f.lastUpdate) as real), measurement, maxError);
    NoOtherWeightIsBetter(e.p, Noise(maxError), Update(f, measurement, maxError, taken).offsetCovariance.v, w);
  }

  // ---------- the two maps ----------

  /** A drift counts once it is more than twice its standard deviation. */
  function Rate(e: Element): real {
    if e.useDrift then e.drift else 0.0
  }

  /** A moment here is the server's with the offset added, and the drift since then, to the nearest microsecond. */
  lemma ServerTimeAddsOffsetAndDrift(e: Element, clientTime: int)
    ensures var exact := clientTime as real + e.offset + Rate(e) * (clientTime as real - e.lastUpdate as real);
      exact - 0.5 <= ServerTime(e, clientTime) as real <= exact + 0.5
  {
    var x := e.offset + Rate(e) * (clientTime as real - e.lastUpdate as real);
    assert Ahead(e, clientTime) == x;
    RoundIsNearest(x);
  }

  /** A server moment is answered unless the clock would run at under half speed, or the answer is no stamp. */
  lemma WhenAServerMomentIsAnswered(e: Element, serverTime: int)
    ensures ClientFrom(e, serverTime).Some? <==>
              && 1.0 + Rate(e) >= 0.5
              && var client := Round(ClientMoment(e, serverTime));
                 -0x4_0000_0000_0000 <= client <= 0x4_0000_0000_0000
  {
    hide Round;
  }

  /** Rounding takes the nearest whole number, and of two the one farther from zero. */
  lemma HalvesGoAwayFromZero(x: real)
    ensures x >= 0.0 ==> x - 0.5 < Round(x) as real <= x + 0.5
    ensures Round(-x) == -Round(x)
  {
  }

  // ---------- when there is an answer at all ----------

  /** How many of some measurements were taken later than every one before them, and than `last`. */
  function InOrder(ms: seq<Measurement>, last: int): nat
    decreases |ms|
  {
    if ms == [] then 0
    else if ms[0].taken > last then 1 + InOrder(ms[1..], ms[0].taken)
    else InOrder(ms[1..], last)
  }

  lemma {:induction false} CountsToAHundred(f: Filter, ms: seq<Measurement>)
    requires Sound(f) && 0 <= f.count <= 100
    ensures Fed(f, ms).count == (if f.count + InOrder(ms, f.lastUpdate) < 100
                                 then f.count + InOrder(ms, f.lastUpdate) else 100)
    decreases |ms|
  {
    hide Prior, Corrected, OffsetGain, DriftGain, Noise, Expected;
    if ms != [] {
      UpdateStaysSound(f, ms[0].offset, ms[0].maxError, ms[0].taken);
      CountsToAHundred(Update(f, ms[0].offset, ms[0].maxError, ms[0].taken), ms[1..]);
    }
  }

  /**
   Over every sequence of measurements: a filter answers once it was given two in
   order, and before that not at all; and a new one takes the server's clock for its own.
   */
  lemma TwoMeasurementsMakeAnAnswer(ms: seq<Measurement>, clientTime: int)
    ensures Converged(Fed(NEW_FILTER, ms)) <==> InOrder(ms, 0) >= 2
    ensures ServerTime(NEW_FILTER.current, clientTime) == clientTime
    ensures var client := ClientFrom(NEW_FILTER.current, clientTime); client.Some? ==> client.value == clientTime
  {
    CountsToAHundred(NEW_FILTER, ms);
    FedStaysSound(NEW_FILTER, ms);
    hide Fed, InOrder;
  }
}
