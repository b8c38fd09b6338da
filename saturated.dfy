/** SaturatedPID: the older form of the saturated PIDT1 controller.  Its
    update is the SaturatedController's, with the gains under different
    names, the filter time constant given as a plain number of seconds
    (the field is called CutOffFrequency although it is used as a time
    constant) and no integral discharge. */
module SaturatedPid {
  import opened Numeric
  import Saturated

  /** The tuning parameters of the Go struct, in its field order. */
  datatype Config = Config(
    derivativeGain: real,
    cutOffFrequency: real,   // used as the filter time constant, in seconds
    proportionalGain: real,
    integrationGain: real,
    windUp: real,
    maxOutput: real,
    minOutput: real)

  /** The private saturatedPIDState struct. */
  datatype State = State(e: real, eI: real, uI: real, uD: real, u: real)

  const ZeroState := State(0.0, 0.0, 0.0, 0.0, 0.0)

  /** The arguments of one Update call. */
  datatype Sample = Sample(target: real, actual: real, ff: real, dt: Duration)

  predicate Admissible(config: Config, x: Sample)
  {
    FilterDefined(x.dt, config.cutOffFrequency)
  }

  // The quantities one Update computes from the old state s.

  function ControlError(x: Sample): real
  {
    x.target - x.actual
  }

  function IntegralPart(config: Config, s: State, x: Sample): real
  {
    s.eI * config.integrationGain * x.dt + s.uI
  }

  function DerivativePart(config: Config, s: State, x: Sample): real
    requires Admissible(config, x)
  {
    LowPass(config.derivativeGain, ControlError(x) - s.e, s.uD, x.dt, config.cutOffFrequency)
  }

  function UnsaturatedSignal(config: Config, s: State, x: Sample): real
    requires Admissible(config, x)
  {
    ControlError(x) * config.proportionalGain + IntegralPart(config, s, x) + DerivativePart(config, s, x) + x.ff
  }

  function SaturatedSignal(config: Config, s: State, x: Sample): real
    requires Admissible(config, x)
  {
    Clamp(UnsaturatedSignal(config, s, x), config.minOutput, config.maxOutput)
  }

  function TrackedIntegrand(config: Config, s: State, x: Sample): real
    requires Admissible(config, x)
  {
    AntiWindupIntegrand(ControlError(x), config.windUp, SaturatedSignal(config, s, x), UnsaturatedSignal(config, s, x))
  }

  /** The state Update leaves behind. */
  function Updated(config: Config, s: State, x: Sample): State
    requires Admissible(config, x)
  {
    State(
      e := ControlError(x),
      eI := TrackedIntegrand(config, s, x),
      uI := IntegralPart(config, s, x),
      uD := DerivativePart(config, s, x),
      u := SaturatedSignal(config, s, x))
  }

  class SaturatedPidController {
    var config: Config
    var state: State

    constructor (config: Config)
      ensures this.config == config && state == ZeroState
    {
      this.config := config;
      state := ZeroState;
    }

    method Reset()
      modifies this`state
      ensures state == ZeroState
    {
      state := ZeroState;
    }

    /** One sampling step; returns the stored saturated signal. */
    method Update(target: real, actual: real, ff: real, dt: Duration) returns (u: real)
      requires FilterDefined(dt, config.cutOffFrequency)
      modifies this`state
      ensures state == Updated(config, old(state), Sample(target, actual, ff, dt))
      ensures u == state.u
      ensures config.minOutput <= config.maxOutput ==> config.minOutput <= u <= config.maxOutput
    {
      ghost var s := state;
      var e := target - actual;
      var uP := e * config.proportionalGain;
      var uI := state.eI * config.integrationGain * dt + state.uI;
      var uD := LowPass(config.derivativeGain, e - state.e, state.uD, dt, config.cutOffFrequency);
      var uV := uP + uI + uD + ff;
      state := state.(u := Clamp(uV, config.minOutput, config.maxOutput));
      state := state.(eI := AntiWindupIntegrand(e, config.windUp, state.u, uV));
      state := state.(uI := uI);
      state := state.(uD := uD);
      state := state.(e := e);
      u := state.u;
      UpdatedFromParts(config, s, Sample(target, actual, ff, dt), e, uP, uI, uD, uV);
    }
  }

  /** A solver aid for Update: the values the Go code computes step by
      step, stored in its order, form the state Updated describes. */
  lemma UpdatedFromParts(config: Config, s: State, x: Sample, e: real, uP: real, uI: real, uD: real, uV: real)
    requires Admissible(config, x)
    requires e == x.target - x.actual && uP == e * config.proportionalGain
    requires uI == s.eI * config.integrationGain * x.dt + s.uI
    requires uD == LowPass(config.derivativeGain, e - s.e, s.uD, x.dt, config.cutOffFrequency)
    requires uV == uP + uI + uD + x.ff
    ensures var u := Clamp(uV, config.minOutput, config.maxOutput);
      && State(e, AntiWindupIntegrand(e, config.windUp, u, uV), uI, uD, u) == Updated(config, s, x)
      && (config.minOutput <= config.maxOutput ==> config.minOutput <= u <= config.maxOutput)
  {
    assert e == ControlError(x);
    assert uI == IntegralPart(config, s, x);
    assert uD == DerivativePart(config, s, x);
    assert uV == UnsaturatedSignal(config, s, x);
    ClampProperties(uV, config.minOutput, config.maxOutput);
  }

  /** The SaturatedController configuration with the same gains, limits
      and filter time constant, and no discharge. */
  function AsSaturatedConfig(config: Config): Saturated.Config
  {
    Saturated.Config(
      proportionalGain := config.proportionalGain,
      integralGain := config.integrationGain,
      derivativeGain := config.derivativeGain,
      antiWindUpGain := config.windUp,
      integralPartDecreaseFactor := 0.0,
      lowPassTimeConstant := config.cutOffFrequency,
      maxOutput := config.maxOutput,
      minOutput := config.minOutput)
  }

  function AsSaturatedState(s: State): Saturated.State
  {
    Saturated.State(s.e, s.eI, s.uI, s.uD, s.u)
  }

  /** SaturatedPID and SaturatedController compute the same update: from
      corresponding states and the same sample they reach corresponding
      states. */
  lemma {:induction false} AgreesWithSaturatedController(config: Config, s: State, x: Sample)
    requires Admissible(config, x)
    ensures var c := AsSaturatedConfig(config);
      var y := Saturated.Sample(x.target, x.actual, x.ff, x.dt);
      && Saturated.Admissible(c, y)
      && AsSaturatedState(Updated(config, s, x)) == Saturated.Updated(c, AsSaturatedState(s), y)
  {
    var c := AsSaturatedConfig(config);
    var t := AsSaturatedState(s);
    var y := Saturated.Sample(x.target, x.actual, x.ff, x.dt);
    assert Saturated.ControlError(y) == ControlError(x);
    assert Saturated.IntegralPart(c, t, y) == IntegralPart(config, s, x);
    assert Saturated.DerivativePart(c, t, y) == DerivativePart(config, s, x);
    assert Saturated.UnsaturatedSignal(c, t, y) == UnsaturatedSignal(config, s, x);
    assert Saturated.SaturatedSignal(c, t, y) == SaturatedSignal(config, s, x);
    assert Saturated.TrackedIntegrand(c, t, y) == TrackedIntegrand(config, s, x);
  }

  /** The stored signal lies within ordered limits; the integrand equals
      the error while the limits are not hit, and always when WindUp is 0. */
  lemma {:induction false} UpdateSaturatesOutput(config: Config, s: State, x: Sample)
    requires Admissible(config, x)
    ensures var r := Updated(config, s, x);
      var v := UnsaturatedSignal(config, s, x);
      && (config.minOutput <= config.maxOutput ==> config.minOutput <= r.u <= config.maxOutput)
      && (config.minOutput <= v <= config.maxOutput ==> r.u == v && r.eI == r.e)
      && (config.windUp == 0.0 ==> r.eI == r.e)
  {
    ClampProperties(UnsaturatedSignal(config, s, x), config.minOutput, config.maxOutput);
  }

  /** The proportional-only scenario without reset between calls:
      Kp = 1, CutOffFrequency = 1, limits [-10, 10], dt = 10 ms, targets 1,
      50 and -50 against a measurement of 0 leave the states
      {e: 1, eI: 1, u: 1}, {e: 50, eI: 50, u: 10} and {e: -50, eI: -50, u: -10},
      with zero integral and derivative parts. */
  method ProportionalScenario() returns (states: seq<State>)
    ensures states == [State(1.0, 1.0, 0.0, 0.0, 1.0), State(50.0, 50.0, 0.0, 0.0, 10.0),
                       State(-50.0, -50.0, 0.0, 0.0, -10.0)]
  {
    var c := new SaturatedPidController(Config(
      derivativeGain := 0.0, cutOffFrequency := 1.0, proportionalGain := 1.0, integrationGain := 0.0,
      windUp := 0.0, maxOutput := 10.0, minOutput := -10.0));
    states := [];
    var targets := [1.0, 50.0, -50.0];
    for k := 0 to 3
      invariant c.config == Config(0.0, 1.0, 1.0, 0.0, 0.0, 10.0, -10.0)
      invariant c.state.uI == 0.0 && c.state.uD == 0.0
      invariant |states| == k
      invariant forall j :: 0 <= j < k ==>
        var u := Clamp(targets[j], -10.0, 10.0);
        states[j] == State(targets[j], targets[j], 0.0, 0.0, u)
    {
      var u := c.Update(targets[k], 0.0, 0.0, 0.01);
      states := states + [c.state];
    }
  }
}
