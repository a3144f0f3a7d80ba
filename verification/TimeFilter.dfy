/**
 The filter itself (internal/sendspin/timefilter.go:24-111): the fields one
 measurement rewrites, step by step, and what they add up to.
 */
module TimeFilterClass {
  import opened TimeFilterModel
  import opened Wrappers

  class TimeFilter {
    var lastUpdate: int
    var count: int
    var offset: real
    var drift: real
    var offsetCovariance: Variance
    var offsetDriftCovariance: real
    var driftCovariance: real
    var current: Element

    ghost function Abs(): Filter
      reads this
    {
      Filter(lastUpdate, count, offset, drift, offsetCovariance, offsetDriftCovariance,
             driftCovariance, current)
    }

    constructor ()
      ensures Abs() == NEW_FILTER
    {
      lastUpdate, count, offset, drift := 0, 0, 0.0, 0.0;
      offsetCovariance, offsetDriftCovariance, driftCovariance := Unbounded, 0.0, 0.0;
      current := Element(0, 0.0, 0.0, false);
    }

    method Update(measurement: int, maxError: int, taken: int)
      requires Abs().Valid()
      modifies this
      ensures Abs() == TimeFilterModel.Update(old(Abs()), measurement, maxError, taken)
      ensures Abs().Valid()
    {
      if taken <= lastUpdate { return; }
      var dt := (taken - lastUpdate) as real;
      var noise := Noise(maxError);
      if count <= 0 {
        lastUpdate, count := taken, count + 1;
        offset, offsetCovariance, drift := measurement as real, Bounded(noise), 0.0;
        current := Element(lastUpdate, offset, 0.0, false);
        return;
      }
      if count == 1 {
        lastUpdate, count := taken, count + 1;
        drift := (measurement as real - offset) / dt;
        offset := measurement as real;
        driftCovariance := (offsetCovariance.v + noise) / (dt * dt);
        offsetCovariance := Bounded(noise);
        current := Element(lastUpdate, offset, drift, false);
        return;
      }
      Correct(measurement, maxError, taken, dt);
    }

    /** A third or later measurement. */
    method Correct(measurement: int, maxError: int, taken: int, dt: real)
      requires count >= 2 && offsetCovariance.Bounded? && dt == (taken - lastUpdate) as real
      modifies this
      ensures Abs() == Later(old(Abs()), measurement, maxError, taken)
    {
      hide Uncertainty, Noise, OffsetGain, DriftGain, Shifted, Reduced, Predicted, Forgotten;
      var expected := offset + drift * dt;
      assert expected == Expected(old(Abs()), taken);
      hide Expected;
      var next := Predicted(Covariance(offsetCovariance.v, offsetDriftCovariance, driftCovariance), dt);
      var residual := measurement as real - expected;
      var seen := count;
      if seen < ADAPTIVE_AFTER {
        seen := seen + 1;
      } else if RealAbs(residual) > maxError as real * ADAPTIVE_CUTOFF {
        next := Forgotten(next);
      }
      assert next == Prior(old(Abs()), measurement, maxError, taken);
      hide Prior, RealAbs;
      var offsetGain, driftGain := OffsetGain(next, Noise(maxError)), DriftGain(next, Noise(maxError));
      lastUpdate, count := taken, seen;
      offset := Shifted(expected, offsetGain, residual);
      drift := Shifted(drift, driftGain, residual);
      driftCovariance := Reduced(next.drift, driftGain, next.both);
      offsetDriftCovariance := Reduced(next.both, driftGain, next.offset);
      offsetCovariance := Bounded(Reduced(next.offset, offsetGain, next.offset));
      current := Element(lastUpdate, offset, drift,
                         drift * drift > DRIFT_SIGNIFICANCE * driftCovariance);
    }

    method ServerTime(clientTime: int) returns (serverTime: int)
      ensures serverTime == TimeFilterModel.ServerTime(current, clientTime)
    {
      serverTime := TimeFilterModel.ServerTime(current, clientTime);
    }

    /** Where a server moment falls here, and the offset it was mapped with. */
    method Sample(serverTime: int) returns (client: int, rounded: int, ok: bool)
      ensures ok == (Converged(Abs()) && ClientFrom(current, serverTime).Some?)
      ensures ok ==> client == ClientFrom(current, serverTime).value && rounded == Round(current.offset)
      ensures !ok ==> client == 0 && rounded == 0
    {
      client, rounded, ok := 0, 0, false;
      if count < 2 || offsetCovariance.Unbounded? { return; }
      var answer := ClientFrom(current, serverTime);
      if answer == None { return; }
      client, rounded, ok := answer.value, Round(current.offset), true;
    }
  }
}
