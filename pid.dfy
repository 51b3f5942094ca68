/** The second-generation PID controller: output with dead-band
    (`_pid_compute_output`), back-calculation anti-windup
    (`_pid_apply_anti_windup`), the timing of a step, the state reset
    (`_reset_pid_state`) and the condition that releases a suspension. */
module Pid {
  import opened Common

  /** The gains after `float(...)` conversion (a failed conversion falls back
      to the defaults before they reach the model). */
  datatype Gains = Gains(kp: real, ki: real, kd: real)

  /** Outputs below 1 W in magnitude are reported as 0. */
  function DeadBand(u: real): (r: real)
    ensures Abs(u) < 1.0 <==> r == 0.0
    ensures r != 0.0 ==> r == u
  {
    if Abs(u) < 1.0 then 0.0 else u
  }

  /** `kp*error + ki*integral + kd*derivative`. */
  function Raw(g: Gains, integral: real, error: real, derivative: real): real
  {
    g.kp * error + g.ki * integral + g.kd * derivative
  }

  /** `_pid_compute_output`: the signed output in watts, before saturation. */
  function ComputeOutput(g: Gains, integral: real, error: real, derivative: real): (u: real)
    ensures u == 0.0 || Abs(u) >= 1.0
    ensures u != 0.0 ==> u == Raw(g, integral, error, derivative)
    ensures Abs(Raw(g, integral, error, derivative)) >= 1.0 ==> u == Raw(g, integral, error, derivative)
  {
    DeadBand(Raw(g, integral, error, derivative))
  }

  /** Integrate first: only a positive time step adds `error * dt`. */
  function Integrate(integral: real, error: real, dt: real): real
  {
    if dt > 0.0 then integral + error * dt else integral
  }

  /** Back-calculation: when the saturated output differs from the
      unconstrained one, move the integral by the difference over `ki`. */
  function BackCalculate(g: Gains, integral: real, uUnsat: real, uSat: real): real
    requires g.ki != 0.0
  {
    if uSat != uUnsat then integral + (uSat - uUnsat) / g.ki else integral
  }

  /** The safety clamp of the integral to `max(sat_pos, sat_neg) / |ki|`. */
  function LimitIntegral(integral: real, maxIntegral: real): real
  {
    if integral > maxIntegral then maxIntegral
    else if integral < -maxIntegral then -maxIntegral
    else integral
  }

  /** The integral after one `_pid_apply_anti_windup` step: integrate,
      back-calculate against the saturated output, then apply the safety
      clamp; with `ki == 0` the integral is not touched. */
  function StepIntegral(g: Gains, integral: real, error: real, dt: real, derivative: real,
                        satPos: real, satNeg: real): real
  {
    if g.ki == 0.0 then integral
    else
      var i1 := Integrate(integral, error, dt);
      var uUnsat := Raw(g, i1, error, derivative);
      var i2 := BackCalculate(g, i1, uUnsat, Clamp(uUnsat, satNeg, satPos));
      LimitIntegral(i2, MaxR(satPos, satNeg) / Abs(g.ki))
  }

  /** `_pid_apply_anti_windup` as a value: the output and the new integral. */
  function AntiWindup(g: Gains, integral: real, error: real, dt: real, derivative: real,
                      satPos: real, satNeg: real): (real, real)
  {
    var i := StepIntegral(g, integral, error, dt, derivative, satPos, satNeg);
    (DeadBand(Clamp(Raw(g, i, error, derivative), satNeg, satPos)), i)
  }

  /** After back-calculation the controller would output exactly the
      saturated value: the integral tracks the actuator limit. */
  lemma BackCalculationTracks(g: Gains, i1: real, error: real, derivative: real, satPos: real, satNeg: real)
    requires g.ki != 0.0
    ensures var uUnsat := Raw(g, i1, error, derivative);
      var uSat := Clamp(uUnsat, satNeg, satPos);
      Raw(g, BackCalculate(g, i1, uUnsat, uSat), error, derivative) == uSat
  {
    var uUnsat := Raw(g, i1, error, derivative);
    var uSat := Clamp(uUnsat, satNeg, satPos);
    if uSat != uUnsat {
      var delta := (uSat - uUnsat) / g.ki;
      assert g.ki * delta == uSat - uUnsat;
      assert g.ki * (i1 + delta) == g.ki * i1 + g.ki * delta;
    }
  }

  /** With non-negative limits the output stays inside
      [-sat_neg, sat_pos] and is either 0 or at least 1 W in magnitude. */
  lemma OutputBounded(g: Gains, integral: real, error: real, dt: real, derivative: real,
                      satPos: real, satNeg: real)
    requires satPos >= 0.0 && satNeg >= 0.0
    ensures var (out, _) := AntiWindup(g, integral, error, dt, derivative, satPos, satNeg);
      -satNeg <= out <= satPos && (out == 0.0 || Abs(out) >= 1.0)
  {
  }

  /** With `ki != 0` the integral never leaves
      [-max(sat_pos, sat_neg)/|ki|, max(sat_pos, sat_neg)/|ki|]. */
  lemma IntegralBounded(g: Gains, integral: real, error: real, dt: real, derivative: real,
                        satPos: real, satNeg: real)
    requires g.ki != 0.0 && satPos >= 0.0 && satNeg >= 0.0
    ensures var (_, i) := AntiWindup(g, integral, error, dt, derivative, satPos, satNeg);
      Abs(i) <= MaxR(satPos, satNeg) / Abs(g.ki)
  {
    var m := MaxR(satPos, satNeg) / Abs(g.ki);
    assert m >= 0.0;
  }

  /** With `ki == 0` the integral is left alone and the output is the
      saturated proportional-derivative term. */
  lemma NoIntegralWithoutKi(g: Gains, integral: real, error: real, dt: real, derivative: real,
                            satPos: real, satNeg: real)
    requires g.ki == 0.0
    ensures AntiWindup(g, integral, error, dt, derivative, satPos, satNeg)
      == (DeadBand(Clamp(g.kp * error + g.kd * derivative, satNeg, satPos)), integral)
  {
    assert StepIntegral(g, integral, error, dt, derivative, satPos, satNeg) == integral;
    assert g.ki * integral == 0.0;
    assert Raw(g, integral, error, derivative) == g.kp * error + g.kd * derivative;
  }

  /** A step with a non-positive time step and an unsaturated output leaves
      the integral where it was (inside its bound). */
  lemma NoIntegrationWithoutTime(g: Gains, integral: real, error: real, dt: real, derivative: real,
                                 satPos: real, satNeg: real)
    requires g.ki != 0.0 && dt <= 0.0
    requires -satNeg <= Raw(g, integral, error, derivative) <= satPos
    requires Abs(integral) <= MaxR(satPos, satNeg) / Abs(g.ki)
    ensures AntiWindup(g, integral, error, dt, derivative, satPos, satNeg).1 == integral
  {
  }

  /** A pure integral controller (`kp = kd = 0`) never reaches the safety
      clamp: after every step the controller output equals the saturated
      output of the step. */
  lemma PureIntegralTracksSaturation(g: Gains, integral: real, error: real, dt: real,
                                     satPos: real, satNeg: real)
    requires g.kp == 0.0 && g.kd == 0.0 && g.ki != 0.0 && satPos >= 0.0 && satNeg >= 0.0
    ensures Raw(g, StepIntegral(g, integral, error, dt, 0.0, satPos, satNeg), error, 0.0)
      == Clamp(Raw(g, Integrate(integral, error, dt), error, 0.0), satNeg, satPos)
  {
    var i1 := Integrate(integral, error, dt);
    TrackedIntegralStaysInBound(g, i1, error, satPos, satNeg);
    BackCalculationTracks(g, i1, error, 0.0, satPos, satNeg);
  }

  /** For a pure integral controller the tracked integral is inside the
      safety bound, so the safety clamp leaves it alone. */
  lemma TrackedIntegralStaysInBound(g: Gains, i1: real, error: real, satPos: real, satNeg: real)
    requires g.kp == 0.0 && g.kd == 0.0 && g.ki != 0.0 && satPos >= 0.0 && satNeg >= 0.0
    ensures var uUnsat := Raw(g, i1, error, 0.0);
      var uSat := Clamp(uUnsat, satNeg, satPos);
      var i2 := BackCalculate(g, i1, uUnsat, uSat);
      LimitIntegral(i2, MaxR(satPos, satNeg) / Abs(g.ki)) == i2 && g.ki * i2 == uSat
  {
    var uUnsat := Raw(g, i1, error, 0.0);
    var uSat := Clamp(uUnsat, satNeg, satPos);
    var i2 := BackCalculate(g, i1, uUnsat, uSat);
    BackCalculationTracks(g, i1, error, 0.0, satPos, satNeg);
    PureIntegralRaw(g, i2, error);
    WithinScaledBound(g.ki, i2, uSat, MaxR(satPos, satNeg));
  }

  lemma PureIntegralRaw(g: Gains, i: real, error: real)
    requires g.kp == 0.0 && g.kd == 0.0
    ensures Raw(g, i, error, 0.0) == g.ki * i
  {
  }

  /** `|x| <= m` and `k * i == x` give `|i| <= m / |k|`. */
  lemma WithinScaledBound(k: real, i: real, x: real, m: real)
    requires k != 0.0 && k * i == x && Abs(x) <= m
    ensures -(m / Abs(k)) <= i <= m / Abs(k)
  {
    assert Abs(x) == Abs(k) * Abs(i);
    assert Abs(k) * Abs(i) <= m;
    assert Abs(i) == (Abs(k) * Abs(i)) / Abs(k);
  }

  /** `kp = 1, ki = 0`, error 100 W with limits of 10 W: the output is 10 W. */
  lemma KiZeroClampsOutput()
    ensures AntiWindup(Gains(1.0, 0.0, 0.0), 0.0, 100.0, 1.0, 0.0, 10.0, 10.0).0 == 10.0
  {
  }

  /** `ki = 1`, integral 5, error 3, `dt = 0`: no integration, output 5. */
  lemma ZeroTimeStepDoesNotIntegrate()
    ensures AntiWindup(Gains(0.0, 1.0, 0.0), 5.0, 3.0, 0.0, 0.0, 1000.0, 1000.0) == (5.0, 5.0)
  {
    var g := Gains(0.0, 1.0, 0.0);
    assert Integrate(5.0, 3.0, 0.0) == 5.0;
    assert Raw(g, 5.0, 3.0, 0.0) == 5.0;
    assert Clamp(5.0, 1000.0, 1000.0) == 5.0;
    assert BackCalculate(g, 5.0, 5.0, 5.0) == 5.0;
    assert LimitIntegral(5.0, MaxR(1000.0, 1000.0) / Abs(g.ki)) == 5.0;
    assert StepIntegral(g, 5.0, 3.0, 0.0, 0.0, 1000.0, 1000.0) == 5.0;
    assert DeadBand(5.0) == 5.0;
  }

  /** `ki = 1`, integral 0, error 2, `dt = 3`: integral and output 6. */
  lemma UnsaturatedIntegrates()
    ensures AntiWindup(Gains(0.0, 1.0, 0.0), 0.0, 2.0, 3.0, 0.0, 1000.0, 1000.0) == (6.0, 6.0)
  {
    var g := Gains(0.0, 1.0, 0.0);
    assert Integrate(0.0, 2.0, 3.0) == 6.0;
    assert Raw(g, 6.0, 2.0, 0.0) == 6.0;
    assert Clamp(6.0, 1000.0, 1000.0) == 6.0;
    assert BackCalculate(g, 6.0, 6.0, 6.0) == 6.0;
    assert LimitIntegral(6.0, MaxR(1000.0, 1000.0) / Abs(g.ki)) == 6.0;
    assert StepIntegral(g, 0.0, 2.0, 3.0, 0.0, 1000.0, 1000.0) == 6.0;
    assert DeadBand(6.0) == 6.0;
  }

  /** Saturated at +10 W with `ki = 1`: output 10, integral pulled to 10. */
  lemma SaturatedPositiveBackCalculates()
    ensures AntiWindup(Gains(0.0, 1.0, 0.0), 0.0, 100.0, 1.0, 0.0, 10.0, 10.0) == (10.0, 10.0)
  {
    var g := Gains(0.0, 1.0, 0.0);
    assert Integrate(0.0, 100.0, 1.0) == 100.0;
    assert Raw(g, 100.0, 100.0, 0.0) == 100.0;
    assert BackCalculate(g, 100.0, 100.0, 10.0) == 10.0;
    assert StepIntegral(g, 0.0, 100.0, 1.0, 0.0, 10.0, 10.0) == 10.0;
    assert Raw(g, 10.0, 100.0, 0.0) == 10.0;
  }

  /** Saturated at -10 W with `ki = 2`: output -10, integral pulled to -5. */
  lemma SaturatedNegativeBackCalculates()
    ensures AntiWindup(Gains(0.0, 2.0, 0.0), 0.0, -100.0, 1.0, 0.0, 10.0, 10.0) == (-10.0, -5.0)
  {
  }

  /** The time step of a control step: 0 on the first step, otherwise the
      elapsed seconds, never negative. */
  function TimeStep(prevTime: Option<real>, now: real): (dt: real)
    ensures dt >= 0.0
    ensures prevTime.None? ==> dt == 0.0
    ensures prevTime.Some? && now >= prevTime.value ==> dt == now - prevTime.value
  {
    if prevTime.None? then 0.0 else MaxR(0.0, now - prevTime.value)
  }

  /** The derivative term input: the error change per second, or 0 when
      there is no earlier error or no elapsed time. */
  function Derivative(error: real, prevError: Option<real>, dt: real): (d: real)
    ensures dt > 0.0 && prevError.Some? ==> d * dt == error - prevError.value
    ensures dt <= 0.0 || prevError.None? ==> d == 0.0
  {
    if dt > 0.0 && prevError.Some? then (error - prevError.value) / dt else 0.0
  }

  /** A suspended PID resumes only once the load crosses the threshold again
      in the direction it was suspended in: a surplus beyond the minimum
      surplus for CHARGE, a consumption beyond the minimum consumption for
      DISCHARGE. */
  predicate ShouldResume(suspendDirection: PowerDir, realPower: real, minSurplus: real, minConsumption: real)
  {
    match suspendDirection
    case Charge => realPower < -minSurplus
    case Discharge => realPower > minConsumption
    case Neutral => false
  }

  /** The controller state the coordinator keeps between cycles. */
  class PidState {
    var integral: real
    var prevError: Option<real>
    var prevTime: Option<real>
    var suspended: bool
    var suspendDirection: PowerDir

    constructor ()
      ensures integral == 0.0 && prevError == None && prevTime == None
      ensures !suspended && suspendDirection == Neutral
    {
      integral := 0.0;
      prevError := None;
      prevTime := None;
      suspended := false;
      suspendDirection := Neutral;
    }

    /** `_reset_pid_state`. */
    method Reset()
      modifies this`integral, this`prevError, this`prevTime
      ensures integral == 0.0 && prevError == None && prevTime == None
    {
      integral := 0.0;
      prevError := None;
      prevTime := None;
    }

    /** `_pid_apply_anti_windup`: updates the integral in place, step by
        step, and returns the output. */
    method ApplyAntiWindup(g: Gains, error: real, dt: real, derivative: real, satPos: real, satNeg: real)
      returns (output: real)
      modifies this`integral
      ensures (output, integral) == AntiWindup(g, old(integral), error, dt, derivative, satPos, satNeg)
    {
      if g.ki == 0.0 {
        output := DeadBand(Clamp(g.kp * error + g.kd * derivative, satNeg, satPos));
        assert g.ki * integral == 0.0;
        assert Raw(g, integral, error, derivative) == g.kp * error + g.kd * derivative;
        assert StepIntegral(g, integral, error, dt, derivative, satPos, satNeg) == integral;
        return;
      }
      integral := Integrate(integral, error, dt);
      var uUnsat := Raw(g, integral, error, derivative);
      var uSat := Clamp(uUnsat, satNeg, satPos);
      integral := BackCalculate(g, integral, uUnsat, uSat);
      integral := LimitIntegral(integral, MaxR(satPos, satNeg) / Abs(g.ki));
      output := DeadBand(Clamp(Raw(g, integral, error, derivative), satNeg, satPos));
    }
  }
}
