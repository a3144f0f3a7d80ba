/**
 The clock filter (internal/sendspin/timefilter.go) in exact arithmetic: what one
 measurement does to the estimate, and the two maps between the clocks.
 */
module TimeFilterModel {
  import opened GoInt
  import opened Wrappers

  const DRIFT_PROCESS_VARIANCE: real := 0.0000000000000000000001
  const FORGET_VARIANCE_FACTOR: real := 4.0
  const ADAPTIVE_CUTOFF: real := 3.0
  const ADAPTIVE_AFTER := 100
  const MAX_ERROR_SCALE: real := 0.5
  const DRIFT_SIGNIFICANCE: real := 4.0
  const SLOWEST_RATE: real := 0.5
  const LEAST_VARIANCE: real := 0.000000001
  const STAMP_CEILING := 0x4_0000_0000_0000

  datatype Element = Element(lastUpdate: int, offset: real, drift: real, useDrift: bool)

  /** A variance, which before the first measurement has no bound. */
  datatype Variance = Unbounded | Bounded(v: real)

  datatype Filter = Filter(
    lastUpdate: int, count: int, offset: real, drift: real,
    offsetCovariance: Variance, offsetDriftCovariance: real, driftCovariance: real,
    current: Element)
  {
    /** The offset has a variance as soon as anything has been measured. */
    predicate Valid() {
      count >= 1 ==> offsetCovariance.Bounded?
    }
  }

  const NEW_FILTER := Filter(0, 0, 0.0, 0.0, Unbounded, 0.0, 0.0, Element(0, 0.0, 0.0, false))

  function RealMax(a: real, b: real): real {
    if a >= b then a else b
  }

  function RealAbs(a: real): real {
    if a >= 0.0 then a else -a
  }

  /** The covariance matrix of an estimate of offset and drift. */
  datatype Covariance = Covariance(offset: real, both: real, drift: real) {
    predicate SemiDefinite() {
      offset >= 0.0 && drift >= 0.0 && both * both <= offset * drift
    }
  }

  /** The covariance `dt` later, before anything is measured. */
  function Predicted(c: Covariance, dt: real): Covariance {
    Covariance(c.offset + 2.0 * c.both * dt + c.drift * dt * dt,
               c.both + c.drift * dt,
               c.drift + dt * DRIFT_PROCESS_VARIANCE)
  }

  function Forgotten(c: Covariance): Covariance {
    Covariance(c.offset * FORGET_VARIANCE_FACTOR, c.both * FORGET_VARIANCE_FACTOR,
               c.drift * FORGET_VARIANCE_FACTOR)
  }

  function Uncertainty(c: Covariance, noise: real): (u: real)
    ensures u > 0.0
  {
    1.0 / RealMax(c.offset + noise, LEAST_VARIANCE)
  }

  function OffsetGain(c: Covariance, noise: real): real {
    c.offset * Uncertainty(c, noise)
  }

  function DriftGain(c: Covariance, noise: real): real {
    c.both * Uncertainty(c, noise)
  }

  function Reduced(x: real, gain: real, y: real): real {
    x - gain * y
  }

  /** The covariance once a measurement of the given noise has been taken in. */
  function Corrected(c: Covariance, noise: real): Covariance {
    var offsetGain, driftGain := OffsetGain(c, noise), DriftGain(c, noise);
    Covariance(Reduced(c.offset, offsetGain, c.offset),
               Reduced(c.both, driftGain, c.offset),
               Reduced(c.drift, driftGain, c.both))
  }

  function Noise(maxError: int): real {
    (maxError as real * MAX_ERROR_SCALE) * (maxError as real * MAX_ERROR_SCALE)
  }

  /** What the filter expects of a measurement taken at `taken`. */
  function Expected(f: Filter, taken: int): real {
    f.offset + f.drift * (taken - f.lastUpdate) as real
  }

  function CovarianceOf(f: Filter): Covariance
    requires f.offsetCovariance.Bounded?
  {
    Covariance(f.offsetCovariance.v, f.offsetDriftCovariance, f.driftCovariance)
  }

  /** The covariance a third or later measurement is weighed against. */
  function Prior(f: Filter, measurement: int, maxError: int, taken: int): Covariance
    requires f.offsetCovariance.Bounded?
  {
    var c := Predicted(CovarianceOf(f), (taken - f.lastUpdate) as real);
    var residual := measurement as real - Expected(f, taken);
    if f.count >= ADAPTIVE_AFTER && RealAbs(residual) > maxError as real * ADAPTIVE_CUTOFF
    then Forgotten(c) else c
  }

  /** An estimate moved by its gain of what was left unexplained. */
  function Shifted(estimate: real, gain: real, residual: real): real {
    estimate + gain * residual
  }

  function First(f: Filter, measurement: int, maxError: int, taken: int): Filter {
    f.(lastUpdate := taken, count := f.count + 1, offset := measurement as real, drift := 0.0,
       offsetCovariance := Bounded(Noise(maxError)),
       current := Element(taken, measurement as real, 0.0, false))
  }

  function Second(f: Filter, measurement: int, maxError: int, taken: int): Filter
    requires f.offsetCovariance.Bounded? && taken > f.lastUpdate
  {
    var dt := (taken - f.lastUpdate) as real;
    var drift := (measurement as real - f.offset) / dt;
    f.(lastUpdate := taken, count := 2, offset := measurement as real, drift := drift,
       driftCovariance := (f.offsetCovariance.v + Noise(maxError)) / (dt * dt),
       offsetCovariance := Bounded(Noise(maxError)),
       current := Element(taken, measurement as real, drift, false))
  }

  function Later(f: Filter, measurement: int, maxError: int, taken: int): Filter
    requires f.offsetCovariance.Bounded?
  {
    var prior := Prior(f, measurement, maxError, taken);
    var residual := measurement as real - Expected(f, taken);
    var c := Corrected(prior, Noise(maxError));
    var offset := Shifted(Expected(f, taken), OffsetGain(prior, Noise(maxError)), residual);
    var drift := Shifted(f.drift, DriftGain(prior, Noise(maxError)), residual);
    f.(lastUpdate := taken, count := if f.count < ADAPTIVE_AFTER then f.count + 1 else f.count,
       offset := offset, drift := drift,
       offsetCovariance := Bounded(c.offset), offsetDriftCovariance := c.both,
       driftCovariance := c.drift,
       current := Element(taken, offset, drift, drift * drift > DRIFT_SIGNIFICANCE * c.drift))
  }

  function Update(f: Filter, measurement: int, maxError: int, taken: int): (g: Filter)
    requires f.Valid()
    ensures g.Valid()
  {
    if taken <= f.lastUpdate then f
    else if f.count <= 0 then First(f, measurement, maxError, taken)
    else if f.count == 1 then Second(f, measurement, maxError, taken)
    else Later(f, measurement, maxError, taken)
  }

  // ---------- the two maps ----------

  /** Rounding to the nearest integer, halves away from zero. */
  function Round(x: real): int {
    if x >= 0.0 then (x + 0.5).Floor else -((0.5 - x).Floor)
  }

  function DriftOf(e: Element): real {
    if e.useDrift then e.drift else 0.0
  }

  /** How far ahead the server's clock is at a moment of this one. */
  function Ahead(e: Element, clientTime: int): real {
    e.offset + DriftOf(e) * (clientTime - e.lastUpdate) as real
  }

  function ServerTime(e: Element, clientTime: int): int {
    clientTime + Round(Ahead(e, clientTime))
  }

  /** Where a server moment falls on this clock, before it is rounded. */
  function ClientMoment(e: Element, serverTime: int): real
    requires 1.0 + DriftOf(e) >= SLOWEST_RATE
  {
    (serverTime as real - e.offset + DriftOf(e) * e.lastUpdate as real) / (1.0 + DriftOf(e))
  }

  function ClientFrom(e: Element, serverTime: int): Option<int> {
    if !(1.0 + DriftOf(e) >= SLOWEST_RATE) then None
    else
      var client := Round(ClientMoment(e, serverTime));
      if !(Abs(client) <= STAMP_CEILING) then None else Some(client)
  }

  predicate Converged(f: Filter) {
    f.count >= 2 && f.offsetCovariance.Bounded?
  }
}
