/** The SaturatedController: a PIDT1 controller (PID with a low-pass
    filtered derivative) with a feed-forward term, a saturated output and
    anti-windup by tracking mode (Chapter 6 of Astrom and Murray, Feedback
    Systems, 2008).  Unlike the tracking controller it stores the saturated
    signal it returns, and its anti-windup feedback compares that signal
    with the unsaturated one of the same call. */
module Saturated {
  import opened Numeric

  /** The gains and limits of the Go struct; Update, Reset and
      DischargeIntegral never change them. */
  datatype Config = Config(
    proportionalGain: real,
    integralGain: real,
    derivativeGain: real,
    antiWindUpGain: real,
    integralPartDecreaseFactor: real,   // 1/s
    lowPassTimeConstant: Duration,
    maxOutput: real,
    minOutput: real)

  /** The private saturatedState struct: error, anti-windup corrected
      integrand, integral part, derivative part, saturated signal. */
  datatype State = State(e: real, eI: real, uI: real, uD: real, u: real)

  const ZeroState := State(0.0, 0.0, 0.0, 0.0, 0.0)

  /** The arguments of one Update call. */
  datatype Sample = Sample(target: real, actual: real, ff: real, dt: Duration)

  predicate Admissible(config: Config, x: Sample)
  {
    FilterDefined(x.dt, config.lowPassTimeConstant)
  }

  // The quantities one Update computes from the old state s.

  function ControlError(x: Sample): real
  {
    x.target - x.actual
  }

  function IntegralPart(config: Config, s: State, x: Sample): real
  {
    s.eI * config.integralGain * x.dt + s.uI
  }

  function DerivativePart(config: Config, s: State, x: Sample): real
    requires Admissible(config, x)
  {
    LowPass(config.derivativeGain, ControlError(x) - s.e, s.uD, x.dt, config.lowPassTimeConstant)
  }

  function UnsaturatedSignal(config: Config, s: State, x: Sample): real
    requires Admissible(config, x)
  {
    ControlError(x) * config.proportionalGain + IntegralPart(config, s, x) + DerivativePart(config, s, x) + x.ff
  }

  function SaturatedSignal(config: Config, s: State, x: Sample): real
    requires Admissible(config, x)
  {
    Clamp(UnsaturatedSignal(config, s, x), config.minOutput, config.maxOutput)
  }

  /** The anti-windup corrected integrand: the error plus the anti-windup
      gain times the amount cut off by saturation in this very call. */
  function TrackedIntegrand(config: Config, s: State, x: Sample): real
    requires Admissible(config, x)
  {
    AntiWindupIntegrand(ControlError(x), config.antiWindUpGain, SaturatedSignal(config, s, x), UnsaturatedSignal(config, s, x))
  }

  /** The state Update leaves behind. */
  function Updated(config: Config, s: State, x: Sample): State
    requires Admissible(config, x)
  {
    State(
      e := ControlError(x),
      eI := TrackedIntegrand(config, s, x),
      uI := IntegralPart(config, s, x),
      uD := DerivativePart(config, s, x),
      u := SaturatedSignal(config, s, x))
  }

  /** The unsaturated signal a candidate new state r stands for: the PID
      sum of its error and parts plus the feed-forward term. */
  function PidSum(config: Config, x: Sample, r: State): real
  {
    config.proportionalGain * r.e + r.uI + r.uD + x.ff
  }

  /** The controller equations on the old state s and a candidate new
      state r: error, backward-Euler integral part, the backward-Euler
      discretised filter tf*uD' + uD = Kd*e', the saturated
      PID-plus-feed-forward sum and the tracking integrand. */
  ghost predicate Equations(config: Config, s: State, x: Sample, r: State)
  {
    var tf := config.lowPassTimeConstant;
    && r.e == x.target - x.actual
    && r.uI == s.uI + config.integralGain * s.eI * x.dt
    && tf * (r.uD - s.uD) + x.dt * r.uD == config.derivativeGain * (r.e - s.e)
    && r.u == Clamp(PidSum(config, x, r), config.minOutput, config.maxOutput)
    && r.eI == AntiWindupIntegrand(r.e, config.antiWindUpGain, r.u, PidSum(config, x, r))
  }

  /** The state DischargeIntegral leaves behind. */
  function Discharged(config: Config, s: State, dt: Duration): State
  {
    s.(eI := 0.0, uI := DecreaseFactor(dt, config.integralPartDecreaseFactor) * s.uI)
  }

  class SaturatedController {
    var config: Config
    var state: State

    constructor (config: Config)
      ensures this.config == config && state == ZeroState
    {
      this.config := config;
      state := ZeroState;
    }

    method Reset()
      modifies this`state
      ensures state == ZeroState
    {
      state := ZeroState;
    }

    /** One sampling step; returns the stored saturated signal. */
    method Update(target: real, actual: real, ff: real, dt: Duration) returns (u: real)
      requires FilterDefined(dt, config.lowPassTimeConstant)
      modifies this`state
      ensures state == Updated(config, old(state), Sample(target, actual, ff, dt))
      ensures u == state.u
      ensures config.minOutput <= config.maxOutput ==> config.minOutput <= u <= config.maxOutput
    {
      ghost var s := state;
      var e := target - actual;
      var uP := e * config.proportionalGain;
      var uI := state.eI * config.integralGain * dt + state.uI;
      var uD := LowPass(config.derivativeGain, e - state.e, state.uD, dt, config.lowPassTimeConstant);
      var uV := uP + uI + uD + ff;
      state := state.(u := Clamp(uV, config.minOutput, config.maxOutput));
      state := state.(eI := AntiWindupIntegrand(e, config.antiWindUpGain, state.u, uV));
      state := state.(uI := uI);
      state := state.(uD := uD);
      state := state.(e := e);
      u := state.u;
      UpdatedFromParts(config, s, Sample(target, actual, ff, dt), e, uP, uI, uD, uV);
    }

    /** Zeroes the integrand and scales the integral part by
        clamp(1 - dt*k, 0, 1), k being the decrease factor. */
    method DischargeIntegral(dt: Duration)
      modifies this`state
      ensures state == Discharged(config, old(state), dt)
    {
      state := state.(eI := 0.0);
      state := state.(uI := DecreaseFactor(dt, config.integralPartDecreaseFactor) * state.uI);
    }
  }

  /** A solver aid for Update: the values the Go code computes step by
      step, stored in its order, form the state Updated describes. */
  lemma UpdatedFromParts(config: Config, s: State, x: Sample, e: real, uP: real, uI: real, uD: real, uV: real)
    requires Admissible(config, x)
    requires e == x.target - x.actual && uP == e * config.proportionalGain
    requires uI == s.eI * config.integralGain * x.dt + s.uI
    requires uD == LowPass(config.derivativeGain, e - s.e, s.uD, x.dt, config.lowPassTimeConstant)
    requires uV == uP + uI + uD + x.ff
    ensures var u := Clamp(uV, config.minOutput, config.maxOutput);
      && State(e, AntiWindupIntegrand(e, config.antiWindUpGain, u, uV), uI, uD, u) == Updated(config, s, x)
      && (config.minOutput <= config.maxOutput ==> config.minOutput <= u <= config.maxOutput)
  {
    assert e == ControlError(x);
    assert uI == IntegralPart(config, s, x);
    assert uD == DerivativePart(config, s, x);
    assert uV == UnsaturatedSignal(config, s, x);
    ClampProperties(uV, config.minOutput, config.maxOutput);
  }

  /** The stored signal is the unsaturated signal clamped to the limits:
      inside them when they are ordered, equal to the unsaturated signal
      when that is within them, and the violated limit otherwise. */
  lemma UpdateSaturatesOutput(config: Config, s: State, x: Sample)
    requires Admissible(config, x)
    ensures var u := Updated(config, s, x).u;
      var v := UnsaturatedSignal(config, s, x);
      && (config.minOutput <= config.maxOutput ==> config.minOutput <= u <= config.maxOutput)
      && (config.minOutput <= v <= config.maxOutput ==> u == v)
      && (v > config.maxOutput >= config.minOutput ==> u == config.maxOutput)
      && (v < config.minOutput ==> u == config.minOutput)
  {
    ClampProperties(UnsaturatedSignal(config, s, x), config.minOutput, config.maxOutput);
  }

  /** The tracking correction only acts under saturation: with the
      anti-windup gain off, or while the unsaturated signal is within the
      limits, the integrand is the plain control error. */
  lemma {:induction false} IntegrandWithoutSaturation(config: Config, s: State, x: Sample)
    requires Admissible(config, x)
    requires config.antiWindUpGain == 0.0
             || config.minOutput <= UnsaturatedSignal(config, s, x) <= config.maxOutput
    ensures Updated(config, s, x).eI == Updated(config, s, x).e
  {
    var v := UnsaturatedSignal(config, s, x);
    ClampProperties(v, config.minOutput, config.maxOutput);
    if config.antiWindUpGain != 0.0 {
      assert SaturatedSignal(config, s, x) == v;
    }
  }

  /** The tracking correction winds the integrator back: with a
      non-negative anti-windup gain, saturation at the upper limit can only
      lower the integrand below the error, and at the lower limit only
      raise it. */
  lemma {:induction false} TrackingOpposesSaturation(config: Config, s: State, x: Sample)
    requires Admissible(config, x) && config.antiWindUpGain >= 0.0
    requires config.minOutput <= config.maxOutput
    ensures var v := UnsaturatedSignal(config, s, x);
      var r := Updated(config, s, x);
      && (v > config.maxOutput ==> r.eI <= r.e)
      && (v < config.minOutput ==> r.eI >= r.e)
  {
    var v := UnsaturatedSignal(config, s, x);
    var u := SaturatedSignal(config, s, x);
    ClampProperties(v, config.minOutput, config.maxOutput);
    if v > config.maxOutput {
      assert u - v <= 0.0;
      ProductNonNegative(config.antiWindUpGain, v - u);
    }
    if v < config.minOutput {
      assert u - v >= 0.0;
      ProductNonNegative(config.antiWindUpGain, u - v);
    }
  }

  /** The new state is exactly the solution of the controller equations. */
  lemma {:induction false} UpdateCharacterized(config: Config, s: State, x: Sample, r: State)
    requires Admissible(config, x)
    ensures r == Updated(config, s, x) <==> Equations(config, s, x, r)
  {
    if r == Updated(config, s, x) {
      UpdatedSolvesEquations(config, s, x);
    }
    if Equations(config, s, x, r) {
      EquationsDetermineUpdate(config, s, x, r);
    }
  }

  lemma {:induction false} UpdatedSolvesEquations(config: Config, s: State, x: Sample)
    requires Admissible(config, x)
    ensures Equations(config, s, x, Updated(config, s, x))
  {
    var r := Updated(config, s, x);
    LowPassSolvesFilterEquation(config.derivativeGain, ControlError(x) - s.e, s.uD,
                                x.dt, config.lowPassTimeConstant, r.uD);
    PidSumOfParts(config, s, x, r);
    assert r.u == Clamp(PidSum(config, x, r), config.minOutput, config.maxOutput);
  }

  lemma {:induction false} EquationsDetermineUpdate(config: Config, s: State, x: Sample, r: State)
    requires Admissible(config, x) && Equations(config, s, x, r)
    ensures r == Updated(config, s, x)
  {
    LowPassSolvesFilterEquation(config.derivativeGain, ControlError(x) - s.e, s.uD,
                                x.dt, config.lowPassTimeConstant, r.uD);
    assert r.e == ControlError(x);
    assert r.uI == IntegralPart(config, s, x);
    assert r.uD == DerivativePart(config, s, x);
    PidSumOfParts(config, s, x, r);
    assert r.u == SaturatedSignal(config, s, x);
    assert r.eI == TrackedIntegrand(config, s, x);
  }

  lemma PidSumOfParts(config: Config, s: State, x: Sample, r: State)
    requires Admissible(config, x)
    requires r.e == ControlError(x) && r.uI == IntegralPart(config, s, x) && r.uD == DerivativePart(config, s, x)
    ensures PidSum(config, x, r) == UnsaturatedSignal(config, s, x)
  {
  }

  /** From the zero state the derivative part is Kd*e / (dt + Tf). */
  lemma {:induction false} DerivativeFromRest(config: Config, x: Sample)
    requires Admissible(config, x)
    ensures x.dt + config.lowPassTimeConstant != 0.0
    ensures Updated(config, ZeroState, x).uD
            == config.derivativeGain * (x.target - x.actual) / (x.dt + config.lowPassTimeConstant)
  {
    LowPassFromRest(config.derivativeGain, ControlError(x), x.dt, config.lowPassTimeConstant);
  }

  /** Discharge zeroes the integrand, never grows the magnitude of the
      integral part nor flips its sign, empties it once dt*k >= 1, leaves
      it alone when dt*k <= 0, and touches nothing else. */
  lemma {:induction false} DischargeNeverGrows(config: Config, s: State, dt: Duration)
    ensures var r := Discharged(config, s, dt);
      && r.eI == 0.0
      && Abs(r.uI) <= Abs(s.uI)
      && (r.uI == 0.0 || (r.uI < 0.0 <==> s.uI < 0.0))
      && (dt * config.integralPartDecreaseFactor <= 0.0 ==> r.uI == s.uI)
      && (dt * config.integralPartDecreaseFactor >= 1.0 ==> r.uI == 0.0)
      && r.e == s.e && r.uD == s.uD && r.u == s.u
  {
    var f := DecreaseFactor(dt, config.integralPartDecreaseFactor);
    DecreaseFactorRange(dt, config.integralPartDecreaseFactor);
    ScaleByUnitFactor(f, s.uI);
    assert Discharged(config, s, dt).uI == f * s.uI;
  }

  /** Discharging an integral part of 1000 for 10 ms with a decrease
      factor of 0.1/s leaves 999, the rest of the state untouched. */
  method DischargeScenario() returns (after: State)
    ensures after == State(e := 5.0, eI := 0.0, uI := 999.0, uD := 500.0, u := 1.0)
  {
    var c := new SaturatedController(Config(
      proportionalGain := 1.0, integralGain := 0.01, derivativeGain := 10.0, antiWindUpGain := 0.5,
      integralPartDecreaseFactor := 0.1, lowPassTimeConstant := 1.0,
      maxOutput := 10.0, minOutput := -10.0));
    c.state := State(e := 5.0, eI := 10.0, uI := 1000.0, uD := 500.0, u := 1.0);
    c.DischargeIntegral(0.01);
    DecreaseFactorRange(0.01, 0.1);
    assert DecreaseFactor(0.01, 0.1) == 0.999 by {
      ClampProperties(1.0 - 0.01 * 0.1, 0.0, 1.0);
    }
    after := c.state;
  }

  /** The proportional-only scenario: Kp = 1, Tf = 1 s, limits [-10, 10],
      targets 1, 50, -50 against a measurement of 0 store and return 1, 10
      and -10. */
  method ProportionalScenario() returns (signals: seq<real>)
    ensures signals == [1.0, 10.0, -10.0]
  {
    var c := new SaturatedController(Config(
      proportionalGain := 1.0, integralGain := 0.0, derivativeGain := 0.0, antiWindUpGain := 0.0,
      integralPartDecreaseFactor := 0.1, lowPassTimeConstant := 1.0,
      maxOutput := 10.0, minOutput := -10.0));
    signals := [];
    var targets := [1.0, 50.0, -50.0];
    for k := 0 to 3
      invariant c.config.proportionalGain == 1.0 && c.config.integralGain == 0.0 && c.config.derivativeGain == 0.0
      invariant c.config.lowPassTimeConstant == 1.0
      invariant c.config.minOutput == -10.0 && c.config.maxOutput == 10.0
      invariant c.state.uI == 0.0 && c.state.uD == 0.0
      invariant |signals| == k
      invariant forall j :: 0 <= j < k ==> signals[j] == Clamp(targets[j], -10.0, 10.0)
    {
      var u := c.Update(targets[k], 0.0, 0.0, 0.01);
      signals := signals + [u];
    }
  }
}
