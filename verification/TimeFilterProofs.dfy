/**
 What the clock filter keeps over every sequence of measurements, and how far its
 two maps are from undoing each other (internal/sendspin/timefilter.go).
 */
module TimeFilterProofs {
  import opened TimeFilterModel

  // ---------- the covariance stays one ----------

  lemma SquareIsPositive(x: real)
    ensures x * x >= 0.0
  {
  }

  lemma ProductIsPositive(a: real, b: real)
    requires a >= 0.0 && b >= 0.0
    ensures a * b >= 0.0
  {
  }

  /** A product the solver is to treat as one number. */
  function Times(a: real, b: real): real {
    a * b
  }

  lemma TimesOfSameSign(a: real, b: real)
    requires (a > 0.0 && b > 0.0) || (a < 0.0 && b < 0.0)
    ensures Times(a, b) > 0.0
  {
    if a < 0.0 {
      assert Times(a, b) == (-a) * (-b);
      PositiveProduct(-a, -b);
    }
  }

  lemma ZeroTimes(x: real)
    requires Times(x, x) <= 0.0
    ensures x == 0.0
  {
    if x != 0.0 {
      TimesOfSameSign(x, x);
    }
  }

  lemma ZeroSquare(x: real)
    requires x * x <= 0.0
    ensures x == 0.0
  {
    assert Times(x, x) <= 0.0;
    ZeroTimes(x);
  }

  lemma PositiveProduct(a: real, b: real)
    requires a > 0.0 && b > 0.0
    ensures a * b > 0.0
  {
  }

  /** An order survives being divided by something positive. */
  lemma Cancel(x: real, y: real, r: real)
    requires r > 0.0 && x * r <= y * r
    ensures x <= y
  {
    if x > y {
      PositiveProduct(x - y, r);
    }
  }

  /** Waiting keeps the determinant, but for the noise it adds to the drift. */
  lemma PredictedDeterminant(c: Covariance, dt: real)
    ensures var p := Predicted(c, dt);
      p.offset * p.drift - p.both * p.both ==
      c.offset * c.drift - c.both * c.both + p.offset * (dt * DRIFT_PROCESS_VARIANCE)
  {
    var p := Predicted(c, dt);
    var x := c.drift * dt;
    calc {
      p.offset * c.drift;
      c.offset * c.drift + 2.0 * c.both * dt * c.drift + c.drift * dt * dt * c.drift;
      c.offset * c.drift + 2.0 * c.both * x + x * x;
    }
    assert p.both * p.both == c.both * c.both + 2.0 * c.both * x + x * x;
    assert p.offset * p.drift == p.offset * c.drift + p.offset * (dt * DRIFT_PROCESS_VARIANCE);
  }

  lemma PredictedOffsetIsPositive(c: Covariance, dt: real)
    requires c.SemiDefinite()
    ensures Predicted(c, dt).offset >= 0.0
  {
    var p := Predicted(c, dt);
    if c.drift == 0.0 {
      ZeroSquare(c.both);
    } else {
      var x := c.drift * dt;
      assert p.offset * c.drift == c.offset * c.drift + 2.0 * c.both * x + x * x;
      SquareIsPositive(c.both + x);
      assert (c.both + x) * (c.both + x) == c.both * c.both + 2.0 * c.both * x + x * x;
      assert p.offset * c.drift >= 0.0;
    }
  }

  lemma PredictedStaysSemiDefinite(c: Covariance, dt: real)
    requires c.SemiDefinite() && dt >= 0.0
    ensures Predicted(c, dt).SemiDefinite()
  {
    PredictedOffsetIsPositive(c, dt);
    PredictedDeterminant(c, dt);
    ProductIsPositive(dt, DRIFT_PROCESS_VARIANCE);
    ProductIsPositive(Predicted(c, dt).offset, dt * DRIFT_PROCESS_VARIANCE);
  }

  lemma ForgottenStaysSemiDefinite(c: Covariance)
    requires c.SemiDefinite()
    ensures Forgotten(c).SemiDefinite()
  {
    assert Forgotten(c).both * Forgotten(c).both == 16.0 * (c.both * c.both);
    assert Forgotten(c).offset * Forgotten(c).drift == 16.0 * (c.offset * c.drift);
  }

  /** The gain of a measurement is part of one, clamped or not. */
  lemma GainIsAFraction(c: Covariance, noise: real)
    requires c.offset >= 0.0 && noise >= 0.0
    ensures 0.0 <= OffsetGain(c, noise) <= 1.0
  {
    var s := RealMax(c.offset + noise, LEAST_VARIANCE);
    var g := c.offset * Uncertainty(c, noise);
    assert g * s == c.offset;
    ProductIsPositive(c.offset, Uncertainty(c, noise));
    Cancel(g, 1.0, s);
  }

  /** Correcting scales the determinant by what the gain leaves. */
  lemma CorrectedDeterminant(a: real, d: real, b2: real, g: real, u: real)
    requires g == a * u
    ensures (a * (1.0 - g)) * (d - u * b2) - (1.0 - g) * ((1.0 - g) * b2) == (1.0 - g) * (a * d - b2)
  {
    var rest := 1.0 - g;
    assert a * (u * b2) == g * b2;
    assert a * (d - u * b2) == a * d - g * b2;
    assert (a * rest) * (d - u * b2) == rest * (a * d - g * b2);
    assert rest * b2 == b2 - g * b2;
  }

  lemma CorrectedIs(c: Covariance, noise: real)
    ensures var u, k := Uncertainty(c, noise), Corrected(c, noise); var rest := 1.0 - c.offset * u;
      && k.offset == c.offset * rest && k.both == c.both * rest
      && k.drift == c.drift - u * (c.both * c.both)
      && k.both * k.both == rest * (rest * (c.both * c.both))
  {
    CorrectedBoth(c, Uncertainty(c, noise));
    var rest := 1.0 - c.offset * Uncertainty(c, noise);
    assert (c.both * rest) * (c.both * rest) == rest * (rest * (c.both * c.both));
  }

  lemma CorrectedWithin(a: real, d: real, b2: real, g: real, u: real)
    requires g == a * u && g <= 1.0 && b2 <= a * d
    ensures (1.0 - g) * ((1.0 - g) * b2) <= (a * (1.0 - g)) * (d - u * b2)
  {
    CorrectedDeterminant(a, d, b2, g, u);
    ProductIsPositive(1.0 - g, a * d - b2);
  }

  lemma CorrectedStaysSemiDefinite(c: Covariance, noise: real)
    requires c.SemiDefinite() && noise >= 0.0
    ensures Corrected(c, noise).SemiDefinite()
    ensures Corrected(c, noise).offset <= c.offset && Corrected(c, noise).drift <= c.drift
  {
    GainIsAFraction(c, noise);
    hide Corrected, Uncertainty;
    var u := Uncertainty(c, noise);
    var g, b2 := c.offset * u, c.both * c.both;
    CorrectedIs(c, noise);
    CorrectedDrift(c, u);
    CorrectedWithin(c.offset, c.drift, b2, g, u);
    SquareIsPositive(c.both);
    ProductIsPositive(c.offset, 1.0 - g);
    ProductIsPositive(c.offset, g);
    ProductIsPositive(u, b2);
    Within(c.offset, g, 1.0 - g);
  }

  lemma Within(a: real, g: real, rest: real)
    requires rest == 1.0 - g && a * g >= 0.0
    ensures a * rest <= a
  {
    assert a * rest == a - a * g;
  }

  lemma CorrectedBoth(c: Covariance, u: real)
    ensures c.both - (c.both * u) * c.offset == c.both * (1.0 - c.offset * u)
  {
  }

  lemma CorrectedDrift(c: Covariance, u: real)
    requires c.SemiDefinite() && u > 0.0 && c.offset * u <= 1.0
    ensures (c.both * u) * c.both == u * (c.both * c.both)
    ensures c.drift - u * (c.both * c.both) >= 0.0
  {
    var b2 := c.both * c.both;
    assert u * (c.offset * c.drift - b2) >= 0.0 by {
      ProductIsPositive(u, c.offset * c.drift - b2);
    }
    assert u * (c.offset * c.drift) == (c.offset * u) * c.drift;
    ProductIsPositive(1.0 - c.offset * u, c.drift);
  }

  /** A filter has a covariance once it has measured anything. */
  predicate Sound(f: Filter) {
    && f.Valid()
    && (f.count <= 0 ==> f.offsetDriftCovariance == 0.0 && f.driftCovariance == 0.0)
    && (f.count == 1 ==> f.offsetDriftCovariance == 0.0)
    && (f.count >= 1 ==> CovarianceOf(f).SemiDefinite())
  }

  lemma PriorIsSemiDefinite(f: Filter, measurement: int, maxError: int, taken: int)
    requires Sound(f) && f.count >= 1 && taken >= f.lastUpdate
    ensures Prior(f, measurement, maxError, taken).SemiDefinite()
  {
    var dt := (taken - f.lastUpdate) as real;
    PredictedStaysSemiDefinite(CovarianceOf(f), dt);
    ForgottenStaysSemiDefinite(Predicted(CovarianceOf(f), dt));
  }

  /** Prediction, forgetting, correction and the clamp keep the covariance one. */
  lemma UpdateStaysSound(f: Filter, measurement: int, maxError: int, taken: int)
    requires Sound(f)
    ensures Sound(Update(f, measurement, maxError, taken))
  {
    SquareIsPositive(maxError as real * MAX_ERROR_SCALE);
    if taken > f.lastUpdate {
      if f.count == 1 {
        var dt := (taken - f.lastUpdate) as real;
        PositiveProduct(dt, dt);
        var d := (f.offsetCovariance.v + Noise(maxError)) / (dt * dt);
        assert d * (dt * dt) == f.offsetCovariance.v + Noise(maxError);
        Cancel(0.0, d, dt * dt);
        ProductIsPositive(Noise(maxError), d);
      } else if f.count > 1 {
        PriorIsSemiDefinite(f, measurement, maxError, taken);
        CorrectedStaysSemiDefinite(Prior(f, measurement, maxError, taken), Noise(maxError));
      }
    }
  }

  datatype Measurement = Measurement(offset: int, maxError: int, taken: int)

  function Fed(f: Filter, ms: seq<Measurement>): Filter
    requires f.Valid()
    decreases |ms|
  {
    if ms == [] then f else Fed(Update(f, ms[0].offset, ms[0].maxError, ms[0].taken), ms[1..])
  }

  lemma {:induction false} FedStaysSound(f: Filter, ms: seq<Measurement>)
    requires Sound(f)
    ensures Sound(Fed(f, ms))
    decreases |ms|
  {
    if ms != [] {
      UpdateStaysSound(f, ms[0].offset, ms[0].maxError, ms[0].taken);
      FedStaysSound(Update(f, ms[0].offset, ms[0].maxError, ms[0].taken), ms[1..]);
    }
  }

  /**
   Over every sequence of measurements, whatever errors and times they claim, the
   two variances are no less than zero and the covariance is within them.
   */
  lemma EveryCovarianceIsSemiDefinite(ms: seq<Measurement>)
    ensures var f := Fed(NEW_FILTER, ms);
      f.count >= 1 ==>
        && f.offsetCovariance.Bounded? && f.offsetCovariance.v >= 0.0 && f.driftCovariance >= 0.0
        && f.offsetDriftCovariance * f.offsetDriftCovariance <= f.offsetCovariance.v * f.driftCovariance
  {
    FedStaysSound(NEW_FILTER, ms);
  }

  // ---------- what one measurement does ----------

  /**
   A measurement with an error of at least a microsecond leaves the offset no less
   certain than the measurement itself, is never weighed by the clamp, and moves
   the offset to somewhere between what was expected and what was measured.
   */
  lemma UpdateTightens(f: Filter, measurement: int, maxError: int, taken: int)
    requires Sound(f) && maxError > 0 && taken > f.lastUpdate
    ensures var g := Update(f, measurement, maxError, taken);
      && g.lastUpdate == taken && g.offsetCovariance.Bounded?
      && 0.0 <= g.offsetCovariance.v <= Noise(maxError)
      && (f.count >= 1 ==> Between(Expected(f, taken), g.offset, measurement as real))
      && (f.count <= 1 ==> g.offset == measurement as real)
      && (f.count >= 2 ==>
            Prior(f, measurement, maxError, taken).offset + Noise(maxError) > LEAST_VARIANCE)
  {
    NoiseOfAMicrosecond(maxError);
    if f.count >= 2 {
      PriorIsSemiDefinite(f, measurement, maxError, taken);
      LaterTightens(f, measurement, maxError, taken, Prior(f, measurement, maxError, taken));
      hide Prior, Corrected, Uncertainty;
    }
  }

  lemma LaterTightens(f: Filter, measurement: int, maxError: int, taken: int, p: Covariance)
    requires f.count >= 2 && f.offsetCovariance.Bounded? && maxError > 0
    requires p == Prior(f, measurement, maxError, taken) && p.SemiDefinite()
    ensures var g := Later(f, measurement, maxError, taken);
      && 0.0 <= g.offsetCovariance.v <= Noise(maxError)
      && Between(Expected(f, taken), g.offset, measurement as real)
      && p.offset + Noise(maxError) > LEAST_VARIANCE
  {
    var noise := Noise(maxError);
    NoiseOfAMicrosecond(maxError);
    hide Prior, Corrected, Uncertainty, Noise, Expected, Shifted, OffsetGain, DriftGain;
    CorrectedStaysSemiDefinite(p, noise);
    GainIsAFraction(p, noise);
    OffsetIsAsCertain(p, noise);
    PartOfAResidual(Expected(f, taken), measurement as real, OffsetGain(p, noise));
  }

  lemma NoiseOfAMicrosecond(maxError: int)
    requires maxError > 0
    ensures Noise(maxError) >= 0.25
  {
    var x := maxError as real * MAX_ERROR_SCALE;
    assert x >= 0.5;
    assert x * x >= 0.5 * x;
  }

  predicate Between(a: real, x: real, b: real) {
    a <= x <= b || b <= x <= a
  }

  lemma PartOfAResidual(a: real, b: real, g: real)
    requires 0.0 <= g <= 1.0
    ensures Between(a, Shifted(a, g, b - a), b)
  {
    if b >= a {
      ProductIsPositive(g, b - a);
      ProductIsPositive(1.0 - g, b - a);
    } else {
      ProductIsPositive(g, a - b);
      ProductIsPositive(1.0 - g, a - b);
    }
  }

  /** Away from the clamp the corrected variance is the two in parallel. */
  lemma OffsetIsAsCertain(c: Covariance, noise: real)
    requires c.offset >= 0.0 && noise > LEAST_VARIANCE
    ensures Corrected(c, noise).offset <= noise
  {
    var s := c.offset + noise;
    var u := Uncertainty(c, noise);
    assert u * s == 1.0;
    var g := c.offset * u;
    assert 1.0 - g == noise * u by {
      assert u * s == u * c.offset + u * noise;
    }
    assert Corrected(c, noise).offset == c.offset * (1.0 - g) == g * noise by {
      assert c.offset * (noise * u) == (c.offset * u) * noise;
    }
    GainIsAFraction(c, noise);
    ProductIsPositive(1.0 - g, noise);
  }

  // ---------- the two maps undo each other ----------

  lemma RoundIsNearest(x: real)
    ensures x - 0.5 <= Round(x) as real <= x + 0.5
  {
  }

  lemma RoundIsMonotone(x: real, y: real)
    requires x <= y
    ensures Round(x) <= Round(y)
  {
  }

  lemma ClientMomentUndone(e: Element, serverTime: int, client: int)
    requires 1.0 + DriftOf(e) >= SLOWEST_RATE
    ensures var rate := 1.0 + DriftOf(e);
      client as real + Ahead(e, client) - serverTime as real
      == Times(rate, client as real - ClientMoment(e, serverTime))
  {
    var drift, x, c, last := DriftOf(e), ClientMoment(e, serverTime), client as real, e.lastUpdate as real;
    assert x * (1.0 + drift) == serverTime as real - e.offset + drift * last;
    assert (client - e.lastUpdate) as real == c - last;
    assert drift * (c - last) == drift * c - drift * last;
    assert (1.0 + drift) * (c - x) == c + drift * c - x * (1.0 + drift);
  }

  lemma NearlyBack(client: int, y: real, rounded: int, serverTime: int, rate: real, off: real)
    requires y - 0.5 <= rounded as real <= y + 0.5
    requires client as real + y - serverTime as real == off && -rate / 2.0 <= off <= rate / 2.0
    ensures RealAbs((client + rounded) as real - serverTime as real) <= (1.0 + rate) / 2.0
  {
    assert (client + rounded) as real == client as real + rounded as real;
  }

  /**
   A server moment mapped to this clock and back is off by no more than half a
   microsecond of each clock.
   */
  lemma MapsUndoEachOther(e: Element, serverTime: int)
    requires ClientFrom(e, serverTime).Some?
    ensures var rate := 1.0 + DriftOf(e);
      var back := ServerTime(e, ClientFrom(e, serverTime).value);
      RealAbs(back as real - serverTime as real) <= (1.0 + rate) / 2.0
  {
    hide Times, ClientMoment, Ahead, DriftOf;
    var x, rate := ClientMoment(e, serverTime), 1.0 + DriftOf(e);
    var client := Round(x);
    var y := Ahead(e, client);
    RoundIsNearest(x);
    RoundIsNearest(y);
    ClientMomentUndone(e, serverTime, client);
    HalfOf(rate, client as real - x);
    NearlyBack(client, y, Round(y), serverTime, rate, Times(rate, client as real - x));
  }

  lemma HalfOf(rate: real, d: real)
    requires rate >= 0.0 && -0.5 <= d <= 0.5
    ensures -rate / 2.0 <= Times(rate, d) <= rate / 2.0
  {
    ProductIsPositive(rate, 0.5 - d);
    ProductIsPositive(rate, d + 0.5);
  }

  lemma ClientMomentIsMonotone(e: Element, s: int, t: int)
    requires s <= t && 1.0 + DriftOf(e) >= SLOWEST_RATE
    ensures ClientMoment(e, s) <= ClientMoment(e, t)
  {
    var x, y, rate := ClientMoment(e, s), ClientMoment(e, t), 1.0 + DriftOf(e);
    assert x * rate == s as real - e.offset + DriftOf(e) * e.lastUpdate as real;
    assert y * rate == t as real - e.offset + DriftOf(e) * e.lastUpdate as real;
    Cancel(x, y, rate);
  }

  /** A later server moment is never mapped before an earlier one. */
  lemma ClientFromIsMonotone(e: Element, s: int, t: int)
    requires s <= t && ClientFrom(e, s).Some? && ClientFrom(e, t).Some?
    ensures ClientFrom(e, s).value <= ClientFrom(e, t).value
  {
    ClientMomentIsMonotone(e, s, t);
    RoundIsMonotone(ClientMoment(e, s), ClientMoment(e, t));
    hide ClientMoment, Round;
  }

  /** And between two moments it answers it answers every one. */
  lemma ClientFromAnswersAnInterval(e: Element, s: int, m: int, t: int)
    requires s <= m <= t && ClientFrom(e, s).Some? && ClientFrom(e, t).Some?
    ensures ClientFrom(e, m).Some?
  {
    ClientMomentIsMonotone(e, s, m);
    ClientMomentIsMonotone(e, m, t);
    RoundIsMonotone(ClientMoment(e, s), ClientMoment(e, m));
    RoundIsMonotone(ClientMoment(e, m), ClientMoment(e, t));
    hide ClientMoment, Round;
  }
}
