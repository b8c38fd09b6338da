/** The SimpleController: a plain PID controller whose derivative is the
    unfiltered difference quotient of the control error and whose integral
    is the running sum of error times sampling interval.  The output is
    computed from the freshly updated state and saturated to the limits;
    the state itself is never saturated. */
module Simple {
  import opened Numeric

  /** The gains and limits of the Go struct. */
  datatype Config = Config(
    proportionalGain: real,
    integralGain: real,
    derivativeGain: real,
    minOutput: real,
    maxOutput: real)

  /** The private simpleState struct: integral of the error, its rate of
      change, and the error itself. */
  datatype State = State(errorOverTime: real, errorRate: real, errorSize: real)

  const ZeroState := State(0.0, 0.0, 0.0)

  /** The arguments of one Update call. */
  datatype Sample = Sample(reference: real, current: real, dt: Duration)

  /** The state Update leaves behind: the new error, the difference
      quotient against the previous error, and the integral advanced by one
      rectangle of height error and width dt. */
  function Updated(s: State, x: Sample): State
    requires x.dt != 0.0
  {
    var errorSize := x.reference - x.current;
    State(
      errorOverTime := s.errorOverTime + errorSize * x.dt,
      errorRate := (errorSize - s.errorSize) / x.dt,
      errorSize := errorSize)
  }

  /** The unsaturated PID sum of a state. */
  function Output(config: Config, s: State): real
  {
    config.proportionalGain * s.errorSize + config.integralGain * s.errorOverTime + config.derivativeGain * s.errorRate
  }

  class SimpleController {
    var config: Config
    var state: State

    constructor (config: Config)
      ensures this.config == config && state == ZeroState
    {
      this.config := config;
      state := ZeroState;
    }

    /** One sampling step; the output is computed from the new state. */
    method Update(reference: real, current: real, dt: Duration) returns (u: real)
      requires dt != 0.0
      modifies this`state
      ensures state == Updated(old(state), Sample(reference, current, dt))
      ensures u == Clamp(Output(config, state), config.minOutput, config.maxOutput)
      ensures config.minOutput <= config.maxOutput ==> config.minOutput <= u <= config.maxOutput
    {
      var previousError := state.errorSize;
      state := state.(errorSize := reference - current);
      state := state.(errorRate := (state.errorSize - previousError) / dt);
      state := state.(errorOverTime := state.errorOverTime + state.errorSize * dt);
      var v := Output(config, state);
      u := Clamp(v, config.minOutput, config.maxOutput);
      ClampProperties(v, config.minOutput, config.maxOutput);
    }

    method Reset()
      modifies this`state
      ensures state == ZeroState
    {
      state := ZeroState;
    }
  }

  /** The new state is exactly the solution of the discretised equations:
      the error is reference minus current, the rate times dt is the change
      of the error, and the integral grows by error times dt. */
  lemma {:induction false} UpdateCharacterized(s: State, x: Sample, r: State)
    requires x.dt != 0.0
    ensures r == Updated(s, x) <==>
      && r.errorSize == x.reference - x.current
      && r.errorRate * x.dt == r.errorSize - s.errorSize
      && r.errorOverTime == s.errorOverTime + r.errorSize * x.dt
  {
    var e := x.reference - x.current;
    assert (e - s.errorSize) / x.dt * x.dt == e - s.errorSize;
    if r.errorRate * x.dt == e - s.errorSize {
      QuotientUnique(e - s.errorSize, x.dt, r.errorRate);
    }
  }

  /** The returned value lies within ordered limits and equals the PID sum
      while that is within them. */
  lemma OutputSaturates(config: Config, s: State)
    ensures var u := Clamp(Output(config, s), config.minOutput, config.maxOutput);
      && (config.minOutput <= config.maxOutput ==> config.minOutput <= u <= config.maxOutput)
      && (config.minOutput <= Output(config, s) <= config.maxOutput ==> u == Output(config, s))
  {
    ClampProperties(Output(config, s), config.minOutput, config.maxOutput);
  }

  /** A sequence of Update calls without Reset. */
  function Run(s: State, xs: seq<Sample>): State
    requires forall i :: 0 <= i < |xs| ==> xs[i].dt != 0.0
    decreases |xs|
  {
    if xs == [] then s else Run(Updated(s, xs[0]), xs[1..])
  }

  /** The rectangle-rule integral of the control error over a sequence of
      samples. */
  function ErrorIntegral(xs: seq<Sample>): real
  {
    if xs == [] then 0.0
    else (xs[0].reference - xs[0].current) * xs[0].dt + ErrorIntegral(xs[1..])
  }

  /** Over any run the stored integral grows by exactly the rectangle-rule
      integral of the errors, and the stored error is the last one. */
  lemma {:induction false} RunIntegratesError(s: State, xs: seq<Sample>)
    requires forall i :: 0 <= i < |xs| ==> xs[i].dt != 0.0
    ensures Run(s, xs).errorOverTime == s.errorOverTime + ErrorIntegral(xs)
    ensures xs != [] ==> Run(s, xs).errorSize == xs[|xs| - 1].reference - xs[|xs| - 1].current
    decreases |xs|
  {
    if xs != [] {
      RunIntegratesError(Updated(s, xs[0]), xs[1..]);
      if |xs| > 1 {
        assert xs[1..][|xs[1..]| - 1] == xs[|xs| - 1];
      }
    }
  }

  /** From rest, the PID sum is the error times the effective gain
      Kp + Ki*dt + Kd/dt: the first sample's error is both the integrand of
      one rectangle and the whole change of the error. */
  lemma {:induction false} OutputFromRest(config: Config, x: Sample)
    requires x.dt != 0.0
    ensures Output(config, Updated(ZeroState, x))
            == (config.proportionalGain + config.integralGain * x.dt + config.derivativeGain / x.dt)
               * (x.reference - x.current)
  {
    var e := x.reference - x.current;
    assert e / x.dt == (1.0 / x.dt) * e;
    assert config.derivativeGain * (e / x.dt) == (config.derivativeGain / x.dt) * e;
  }

  /** The controller of the package's scenarios: gains 2, 1, 1 and
      limits [0, 50]. */
  const ScenarioConfig := Config(proportionalGain := 2.0, integralGain := 1.0, derivativeGain := 1.0,
                                 minOutput := 0.0, maxOutput := 50.0)

  /** From rest, a reference of 10 against 0 at dt = 100 ms gives the PID
      sum (2 + 1*0.1 + 1/0.1) * 10 = 121, saturated to 50. */
  lemma {:induction false} IncreaseFromRest()
    ensures Updated(ZeroState, Sample(10.0, 0.0, 0.1)).errorSize == 10.0
    ensures Clamp(Output(ScenarioConfig, Updated(ZeroState, Sample(10.0, 0.0, 0.1))), 0.0, 50.0) == 50.0
  {
    var x := Sample(10.0, 0.0, 0.1);
    OutputFromRest(ScenarioConfig, x);
    assert Output(ScenarioConfig, Updated(ZeroState, x)) == 121.0;
    ClampProperties(121.0, 0.0, 50.0);
  }

  /** From rest, a reference equal to the measurement leaves the zero
      state and the output 0. */
  lemma {:induction false} DecreaseFromRest()
    ensures Updated(ZeroState, Sample(10.0, 10.0, 0.1)).errorSize == 0.0
    ensures Clamp(Output(ScenarioConfig, Updated(ZeroState, Sample(10.0, 10.0, 0.1))), 0.0, 50.0) == 0.0
  {
    var x := Sample(10.0, 10.0, 0.1);
    OutputFromRest(ScenarioConfig, x);
    assert Output(ScenarioConfig, Updated(ZeroState, x)) == 0.0;
    ClampProperties(0.0, 0.0, 50.0);
  }

  /** The scenario controller from rest with a reference of 10 against 0
      at 100 ms returns 50 and stores an error of 10. */
  method OutputIncreaseScenario() returns (u: real, error: real)
    ensures u == 50.0 && error == 10.0
  {
    var c := new SimpleController(ScenarioConfig);
    u := c.Update(10.0, 0.0, 0.1);
    error := c.state.errorSize;
    IncreaseFromRest();
  }

  /** The same controller from rest with a reference of 10 against 10
      returns 0 and stores an error of 0. */
  method OutputDecreaseScenario() returns (u: real, error: real)
    ensures u == 0.0 && error == 0.0
  {
    var c := new SimpleController(ScenarioConfig);
    u := c.Update(10.0, 10.0, 0.1);
    error := c.state.errorSize;
    DecreaseFromRest();
  }
}
