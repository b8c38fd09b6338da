/** The TrackingController: a PIDT1 controller (PID with a low-pass
    filtered derivative) with a feed-forward term, anti-windup and bumpless
    transfer by tracking mode (Chapter 6 of Astrom and Murray, Feedback
    Systems, 2008).  The integral part uI is kept gain-weighted, and the
    anti-windup feedback compares the control signal actually applied to
    the plant, which the caller passes in, with the unsaturated signal the
    controller computed on the PREVIOUS call.  The returned value is
    saturated; the stored signal never is. */
module Tracking {
  import opened Numeric

  /** The gains and limits of the Go struct; Update, Reset and
      DischargeIntegral never change them. */
  datatype Config = Config(
    proportionalGain: real,
    integralGain: real,
    derivativeGain: real,
    antiWindUpGain: real,
    integralPartDecreaseFactor: real,   // 1/s
    lowPassTimeConstant: Duration,
    maxOutput: real,
    minOutput: real)

  /** The private trackingState struct: error, anti-windup corrected
      integrand, integral part, derivative part, unsaturated signal. */
  datatype State = State(e: real, eI: real, uI: real, uD: real, uV: real)

  const ZeroState := State(0.0, 0.0, 0.0, 0.0, 0.0)

  /** The arguments of one Update call. */
  datatype Sample = Sample(target: real, actual: real, ff: real, actualInput: real, dt: Duration)

  predicate Admissible(config: Config, x: Sample)
  {
    FilterDefined(x.dt, config.lowPassTimeConstant)
  }

  // The quantities one Update computes from the old state s.

  function ControlError(x: Sample): real
  {
    x.target - x.actual
  }

  function IntegralPart(config: Config, s: State, x: Sample): real
  {
    s.eI * config.integralGain * x.dt + s.uI
  }

  function DerivativePart(config: Config, s: State, x: Sample): real
    requires Admissible(config, x)
  {
    LowPass(config.derivativeGain, ControlError(x) - s.e, s.uD, x.dt, config.lowPassTimeConstant)
  }

  function UnsaturatedSignal(config: Config, s: State, x: Sample): real
    requires Admissible(config, x)
  {
    ControlError(x) * config.proportionalGain + IntegralPart(config, s, x) + DerivativePart(config, s, x) + x.ff
  }

  /** The anti-windup corrected integrand; it reads the unsaturated signal
      of the previous call, s.uV. */
  function TrackedIntegrand(config: Config, s: State, x: Sample): real
  {
    AntiWindupIntegrand(ControlError(x), config.antiWindUpGain, x.actualInput, s.uV)
  }

  /** The state Update leaves behind. */
  function Updated(config: Config, s: State, x: Sample): State
    requires Admissible(config, x)
  {
    State(
      e := ControlError(x),
      eI := TrackedIntegrand(config, s, x),
      uI := IntegralPart(config, s, x),
      uD := DerivativePart(config, s, x),
      uV := UnsaturatedSignal(config, s, x))
  }

  /** The value Update returns. */
  function Output(config: Config, s: State, x: Sample): real
    requires Admissible(config, x)
  {
    Clamp(UnsaturatedSignal(config, s, x), config.minOutput, config.maxOutput)
  }

  /** The controller equations on the old state s and a candidate new
      state r: error, backward-Euler integral part, the backward-Euler
      discretised filter tf*uD' + uD = Kd*e', the PID-plus-feed-forward sum
      and the tracking integrand, which uses the old unsaturated signal. */
  ghost predicate Equations(config: Config, s: State, x: Sample, r: State)
  {
    var tf := config.lowPassTimeConstant;
    && r.e == x.target - x.actual
    && r.uI == s.uI + config.integralGain * s.eI * x.dt
    && tf * (r.uD - s.uD) + x.dt * r.uD == config.derivativeGain * (r.e - s.e)
    && r.uV == config.proportionalGain * r.e + r.uI + r.uD + x.ff
    && r.eI == AntiWindupIntegrand(r.e, config.antiWindUpGain, x.actualInput, s.uV)
  }

  /** The state DischargeIntegral leaves behind. */
  function Discharged(config: Config, s: State, dt: Duration): State
  {
    s.(eI := 0.0, uI := DecreaseFactor(dt, config.integralPartDecreaseFactor) * s.uI)
  }

  class TrackingController {
    var config: Config
    var state: State

    constructor (config: Config)
      ensures this.config == config && state == ZeroState
    {
      this.config := config;
      state := ZeroState;
    }

    method Reset()
      modifies this`state
      ensures state == ZeroState
    {
      state := ZeroState;
    }

    /** One sampling step: the new integrand is written before the stored
        unsaturated signal is overwritten, as in the Go code. */
    method Update(target: real, actual: real, ff: real, actualInput: real, dt: Duration) returns (u: real)
      requires FilterDefined(dt, config.lowPassTimeConstant)
      modifies this`state
      ensures state == Updated(config, old(state), Sample(target, actual, ff, actualInput, dt))
      ensures u == Clamp(state.uV, config.minOutput, config.maxOutput)
      ensures config.minOutput <= config.maxOutput ==> config.minOutput <= u <= config.maxOutput
    {
      ghost var s := state;
      var e := target - actual;
      var uP := e * config.proportionalGain;
      var uI := state.eI * config.integralGain * dt + state.uI;
      var uD := LowPass(config.derivativeGain, e - state.e, state.uD, dt, config.lowPassTimeConstant);
      var uV := uP + uI + uD + ff;
      state := state.(eI := AntiWindupIntegrand(e, config.antiWindUpGain, actualInput, state.uV));
      state := state.(uI := uI);
      state := state.(uD := uD);
      state := state.(uV := uV);
      state := state.(e := e);
      u := Clamp(uV, config.minOutput, config.maxOutput);
      UpdatedFromParts(config, s, Sample(target, actual, ff, actualInput, dt), e, uP, uI, uD, uV);
      ClampProperties(uV, config.minOutput, config.maxOutput);
    }

    /** Zeroes the integrand and scales the integral part by
        clamp(1 - dt*k, 0, 1), k being the decrease factor. */
    method DischargeIntegral(dt: Duration)
      modifies this`state
      ensures state == Discharged(config, old(state), dt)
    {
      state := state.(eI := 0.0);
      state := state.(uI := DecreaseFactor(dt, config.integralPartDecreaseFactor) * state.uI);
    }
  }

  /** A solver aid for Update: the values the Go code computes step by
      step, stored in its order, form the state Updated describes. */
  lemma UpdatedFromParts(config: Config, s: State, x: Sample, e: real, uP: real, uI: real, uD: real, uV: real)
    requires Admissible(config, x)
    requires e == x.target - x.actual && uP == e * config.proportionalGain
    requires uI == s.eI * config.integralGain * x.dt + s.uI
    requires uD == LowPass(config.derivativeGain, e - s.e, s.uD, x.dt, config.lowPassTimeConstant)
    requires uV == uP + uI + uD + x.ff
    ensures State(e, AntiWindupIntegrand(e, config.antiWindUpGain, x.actualInput, s.uV), uI, uD, uV)
            == Updated(config, s, x)
  {
    assert e == ControlError(x);
    assert uI == IntegralPart(config, s, x);
    assert uD == DerivativePart(config, s, x);
    assert uV == UnsaturatedSignal(config, s, x);
  }

  /** The returned value is the unsaturated signal clamped to the limits:
      inside them when they are ordered, and equal to the unsaturated
      signal when that is within them. */
  lemma OutputSaturates(config: Config, s: State, x: Sample)
    requires Admissible(config, x)
    ensures var u := Output(config, s, x);
      var r := Updated(config, s, x);
      && (config.minOutput <= config.maxOutput ==> config.minOutput <= u <= config.maxOutput)
      && (config.minOutput <= r.uV <= config.maxOutput ==> u == r.uV)
      && (r.uV > config.maxOutput >= config.minOutput ==> u == config.maxOutput)
      && (r.uV < config.minOutput ==> u == config.minOutput)
  {
    ClampProperties(UnsaturatedSignal(config, s, x), config.minOutput, config.maxOutput);
  }

  /** The new state is exactly the solution of the controller equations. */
  lemma {:induction false} UpdateCharacterized(config: Config, s: State, x: Sample, r: State)
    requires Admissible(config, x)
    ensures r == Updated(config, s, x) <==> Equations(config, s, x, r)
  {
    LowPassSolvesFilterEquation(config.derivativeGain, ControlError(x) - s.e, s.uD,
                                x.dt, config.lowPassTimeConstant, r.uD);
    if r == Updated(config, s, x) {
      assert r.uD == DerivativePart(config, s, x);
    }
    if Equations(config, s, x, r) {
      assert r.e == ControlError(x);
      assert r.uI == IntegralPart(config, s, x);
      assert r.uD == DerivativePart(config, s, x);
      assert r.uV == UnsaturatedSignal(config, s, x);
    }
  }

  /** The stored state does not depend on the output limits: they only
      shape the returned value. */
  lemma StateIgnoresLimits(config: Config, s: State, x: Sample, lo: real, hi: real)
    requires Admissible(config, x)
    ensures Updated(config.(minOutput := lo, maxOutput := hi), s, x) == Updated(config, s, x)
  {
    var c := config.(minOutput := lo, maxOutput := hi);
    assert IntegralPart(c, s, x) == IntegralPart(config, s, x);
    assert DerivativePart(c, s, x) == DerivativePart(config, s, x);
    assert UnsaturatedSignal(c, s, x) == UnsaturatedSignal(config, s, x);
    assert TrackedIntegrand(c, s, x) == TrackedIntegrand(config, s, x);
  }

  /** The one-sample lag of the tracking loop: over two calls, the second
      integrand compares the applied signal with the unsaturated signal
      computed by the first call, not by the second. */
  lemma {:induction false} TrackingLagsOneSample(config: Config, s: State, x1: Sample, x2: Sample)
    requires Admissible(config, x1) && Admissible(config, x2)
    ensures var s1 := Updated(config, s, x1);
      var s2 := Updated(config, s1, x2);
      && s2.eI == (x2.target - x2.actual) + config.antiWindUpGain * (x2.actualInput - s1.uV)
      && s1.uV == config.proportionalGain * (x1.target - x1.actual) + s1.uI + s1.uD + x1.ff
  {
    var s1 := Updated(config, s, x1);
    assert s1.uV == UnsaturatedSignal(config, s, x1);
    assert Updated(config, s1, x2).eI == TrackedIntegrand(config, s1, x2);
  }

  /** With the anti-windup gain off, the integrand is the control error. */
  lemma IntegrandWithoutTracking(config: Config, s: State, x: Sample)
    requires Admissible(config, x) && config.antiWindUpGain == 0.0
    ensures Updated(config, s, x).eI == Updated(config, s, x).e
  {
  }

  /** From the zero state the derivative part is Kd*e / (dt + Tf). */
  lemma {:induction false} DerivativeFromRest(config: Config, x: Sample)
    requires Admissible(config, x)
    ensures x.dt + config.lowPassTimeConstant != 0.0
    ensures Updated(config, ZeroState, x).uD
            == config.derivativeGain * (x.target - x.actual) / (x.dt + config.lowPassTimeConstant)
  {
    LowPassFromRest(config.derivativeGain, ControlError(x), x.dt, config.lowPassTimeConstant);
  }

  /** Discharge zeroes the integrand, never grows the magnitude of the
      integral part nor flips its sign, empties it once dt*k >= 1, leaves
      it alone when dt*k <= 0, and touches nothing else. */
  lemma {:induction false} DischargeNeverGrows(config: Config, s: State, dt: Duration)
    ensures var r := Discharged(config, s, dt);
      && r.eI == 0.0
      && Abs(r.uI) <= Abs(s.uI)
      && (r.uI == 0.0 || (r.uI < 0.0 <==> s.uI < 0.0))
      && (dt * config.integralPartDecreaseFactor <= 0.0 ==> r.uI == s.uI)
      && (dt * config.integralPartDecreaseFactor >= 1.0 ==> r.uI == 0.0)
      && r.e == s.e && r.uD == s.uD && r.uV == s.uV
  {
    var f := DecreaseFactor(dt, config.integralPartDecreaseFactor);
    DecreaseFactorRange(dt, config.integralPartDecreaseFactor);
    ScaleByUnitFactor(f, s.uI);
    assert Discharged(config, s, dt).uI == f * s.uI;
  }

  /** The proportional-only scenario: Kp = 1, limits [-10, 10], targets
      1, 50, -50 against a measurement of 0 return 1, 10 and -10, while the
      stored unsaturated signal is the raw 1, 50 and -50. */
  method ProportionalScenario() returns (outputs: seq<real>, signals: seq<real>)
    ensures outputs == [1.0, 10.0, -10.0]
    ensures signals == [1.0, 50.0, -50.0]
  {
    var c := new TrackingController(Config(
      proportionalGain := 1.0, integralGain := 0.0, derivativeGain := 0.0, antiWindUpGain := 0.0,
      integralPartDecreaseFactor := 0.1, lowPassTimeConstant := 1.0,
      maxOutput := 10.0, minOutput := -10.0));
    outputs, signals := [], [];
    var targets := [1.0, 50.0, -50.0];
    for k := 0 to 3
      invariant c.config.proportionalGain == 1.0 && c.config.integralGain == 0.0 && c.config.derivativeGain == 0.0
      invariant c.config.lowPassTimeConstant == 1.0
      invariant c.config.minOutput == -10.0 && c.config.maxOutput == 10.0
      invariant c.state.uI == 0.0 && c.state.uD == 0.0
      invariant |outputs| == |signals| == k
      invariant forall j :: 0 <= j < k ==> signals[j] == targets[j]
      invariant forall j :: 0 <= j < k ==> outputs[j] == Clamp(targets[j], -10.0, 10.0)
    {
      var u := c.Update(targets[k], 0.0, 0.0, 0.0, 0.01);
      outputs, signals := outputs + [u], signals + [c.state.uV];
    }
  }
}
