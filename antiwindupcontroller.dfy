/** The AntiWindupController: a PID controller with a low-pass filtered
    derivative, a feed-forward term, a saturated output and anti-windup by
    actuator-saturation tracking (Chapter 6 of Astrom and Murray, Feedback
    Systems, 2008).  The integrator integrates the raw, anti-windup corrected
    control error; the integral gain is applied afterwards.  Every stored
    error quantity is kept within [-MaxFloat64, MaxFloat64]. */
module AntiWindup {
  import opened Numeric

  /** Tuning of the controller; nothing in the controller changes it. */
  datatype Config = Config(
    proportionalGain: real,
    integralGain: real,
    derivativeGain: real,
    antiWindUpGain: real,
    integralDischargeTimeConstant: real, // seconds
    lowPassTimeConstant: Duration,
    maxOutput: real,
    minOutput: real)

  datatype State = State(
    controlError: real,
    controlErrorIntegrand: real,
    controlErrorIntegral: real,
    controlErrorDerivative: real,
    controlSignal: real,
    unsaturatedControlSignal: real)

  /** The zero value of the state struct. */
  const ZeroState := State(0.0, 0.0, 0.0, 0.0, 0.0, 0.0)

  datatype Input = Input(
    referenceSignal: Float64,
    actualSignal: Float64,
    feedForwardSignal: real,
    samplingInterval: Duration)

  /** Update ignores a sample whose reference or measurement is NaN or infinite. */
  predicate Skipped(input: Input)
  {
    !input.referenceSignal.Finite? || !input.actualSignal.Finite?
  }

  /** The filter divisors of a non-skipped update are non-zero. */
  predicate Admissible(config: Config, input: Input)
  {
    Skipped(input) || FilterDefined(input.samplingInterval, config.lowPassTimeConstant)
  }

  /** The four stored error quantities are finite float64 values. */
  predicate Bounded(s: State)
  {
    && -MAXF <= s.controlError <= MAXF
    && -MAXF <= s.controlErrorIntegrand <= MAXF
    && -MAXF <= s.controlErrorIntegral <= MAXF
    && -MAXF <= s.controlErrorDerivative <= MAXF
  }

  /** None of the four stored error quantities sits on a float64 limit, so
      none of them was cut off by the final clamps of Update. */
  predicate Unclamped(s: State)
  {
    && -MAXF < s.controlError < MAXF
    && -MAXF < s.controlErrorIntegrand < MAXF
    && -MAXF < s.controlErrorIntegral < MAXF
    && -MAXF < s.controlErrorDerivative < MAXF
  }

  // The quantities one non-skipped Update computes from the old state s,
  // each named after the Go variable or field it becomes.

  function ControlError(input: Input): real
    requires !Skipped(input)
  {
    input.referenceSignal.value - input.actualSignal.value
  }

  function NewIntegral(s: State, input: Input): real
  {
    s.controlErrorIntegrand * input.samplingInterval + s.controlErrorIntegral
  }

  function NewDerivative(config: Config, s: State, input: Input): real
    requires Admissible(config, input) && !Skipped(input)
  {
    LowPass(1.0, ControlError(input) - s.controlError, s.controlErrorDerivative,
            input.samplingInterval, config.lowPassTimeConstant)
  }

  function UnsaturatedSignal(config: Config, s: State, input: Input): real
    requires Admissible(config, input) && !Skipped(input)
  {
    ControlError(input) * config.proportionalGain + config.integralGain * NewIntegral(s, input)
    + config.derivativeGain * NewDerivative(config, s, input) + input.feedForwardSignal
  }

  function SaturatedSignal(config: Config, s: State, input: Input): real
    requires Admissible(config, input) && !Skipped(input)
  {
    Clamp(UnsaturatedSignal(config, s, input), config.minOutput, config.maxOutput)
  }

  function NewIntegrand(config: Config, s: State, input: Input): real
    requires Admissible(config, input) && !Skipped(input)
  {
    AntiWindupIntegrand(ControlError(input), config.antiWindUpGain,
                        SaturatedSignal(config, s, input), UnsaturatedSignal(config, s, input))
  }

  /** The state Update leaves behind. */
  function Updated(config: Config, s: State, input: Input): State
    requires Admissible(config, input)
  {
    if Skipped(input) then s
    else
      State(
        controlError := ClampFinite(ControlError(input)),
        controlErrorIntegrand := ClampFinite(NewIntegrand(config, s, input)),
        controlErrorIntegral := ClampFinite(NewIntegral(s, input)),
        controlErrorDerivative := ClampFinite(NewDerivative(config, s, input)),
        controlSignal := SaturatedSignal(config, s, input),
        unsaturatedControlSignal := UnsaturatedSignal(config, s, input))
  }

  /** The controller equations, stated on the old state s and a candidate
      new state r: the error, a backward-Euler integral of the previous
      integrand, the backward-Euler discretised filter tf*D' + D = e', the
      PID-plus-feed-forward sum, the saturation and the anti-windup
      corrected integrand. */
  ghost predicate Equations(config: Config, s: State, input: Input, r: State)
    requires !Skipped(input)
  {
    var dt := input.samplingInterval;
    var tf := config.lowPassTimeConstant;
    && r.controlError == input.referenceSignal.value - input.actualSignal.value
    && r.controlErrorIntegral == s.controlErrorIntegral + s.controlErrorIntegrand * dt
    && tf * (r.controlErrorDerivative - s.controlErrorDerivative) + dt * r.controlErrorDerivative
       == r.controlError - s.controlError
    && r.unsaturatedControlSignal == config.proportionalGain * r.controlError + config.integralGain * r.controlErrorIntegral
                                     + config.derivativeGain * r.controlErrorDerivative + input.feedForwardSignal
    && r.controlSignal == Clamp(r.unsaturatedControlSignal, config.minOutput, config.maxOutput)
    && r.controlErrorIntegrand
       == AntiWindupIntegrand(r.controlError, config.antiWindUpGain, r.controlSignal, r.unsaturatedControlSignal)
  }

  /** A discharge is defined unless both the time constant and the
      interval are zero: Go then computes 0/0, a NaN factor. */
  predicate DischargeDefined(config: Config, dt: Duration)
  {
    config.integralDischargeTimeConstant != 0.0 || dt != 0.0
  }

  /** The factor DischargeIntegral scales the integral by,
      clamp(1 - dt/T, 0, 1).  With an unset time constant T = 0, Go's
      dt/T is +Inf for dt > 0 and -Inf for dt < 0, which the saturation
      turns into the factor 0 and 1 respectively. */
  function DischargeFactor(config: Config, dt: Duration): real
    requires DischargeDefined(config, dt)
  {
    if config.integralDischargeTimeConstant == 0.0 then (if dt > 0.0 then 0.0 else 1.0)
    else Clamp(1.0 - dt / config.integralDischargeTimeConstant, 0.0, 1.0)
  }

  /** The state DischargeIntegral leaves behind. */
  function Discharged(config: Config, s: State, dt: Duration): State
    requires DischargeDefined(config, dt)
  {
    s.(controlErrorIntegrand := 0.0,
       controlErrorIntegral := DischargeFactor(config, dt) * s.controlErrorIntegral)
  }

  class AntiWindupController {
    var config: Config
    var state: State

    /** A controller literal with the given config and a zero state. */
    constructor (config: Config)
      ensures this.config == config && state == ZeroState
    {
      this.config := config;
      state := ZeroState;
    }

    /** Reset overwrites the state with its zero value; the config is
        outside the frame and so stays as it was. */
    method Reset()
      modifies this`state
      ensures state == ZeroState
    {
      state := ZeroState;
    }

    /** One sampling step, assigning the state fields in the order the Go
        code does. */
    method Update(input: Input)
      requires Admissible(config, input)
      modifies this`state
      ensures state == Updated(config, old(state), input)
      ensures Skipped(input) ==> state == old(state)
      ensures !Skipped(input) ==> Bounded(state)
      ensures !Skipped(input) && config.minOutput <= config.maxOutput ==>
                config.minOutput <= state.controlSignal <= config.maxOutput
    {
      if !input.referenceSignal.Finite? || !input.actualSignal.Finite? {
        return;
      }
      ghost var s := state;
      var dt := input.samplingInterval;
      var tf := config.lowPassTimeConstant;
      var e := input.referenceSignal.value - input.actualSignal.value;
      var controlErrorIntegral := state.controlErrorIntegrand * dt + state.controlErrorIntegral;
      var controlErrorDerivative := LowPass(1.0, e - state.controlError, state.controlErrorDerivative, dt, tf);
      assert e == ControlError(input);
      assert controlErrorIntegral == NewIntegral(s, input);
      assert controlErrorDerivative == NewDerivative(config, s, input);
      state := state.(unsaturatedControlSignal := e * config.proportionalGain + config.integralGain * controlErrorIntegral
                                                  + config.derivativeGain * controlErrorDerivative + input.feedForwardSignal);
      assert state.unsaturatedControlSignal == UnsaturatedSignal(config, s, input);
      state := state.(controlSignal := Clamp(state.unsaturatedControlSignal, config.minOutput, config.maxOutput));
      state := state.(controlErrorIntegrand :=
        AntiWindupIntegrand(e, config.antiWindUpGain, state.controlSignal, state.unsaturatedControlSignal));
      assert state.controlErrorIntegrand == NewIntegrand(config, s, input);
      state := state.(controlErrorIntegrand := ClampFinite(state.controlErrorIntegrand));
      state := state.(controlErrorIntegral := ClampFinite(controlErrorIntegral));
      state := state.(controlErrorDerivative := ClampFinite(controlErrorDerivative));
      state := state.(controlError := ClampFinite(e));
      UpdateBoundsStoredFields(config, s, input);
      UpdateSaturatesOutput(config, s, input);
    }

    /** Zeroes the integrand and scales the integral by
        clamp(1 - dt/T, 0, 1), T being the discharge time constant. */
    method DischargeIntegral(dt: Duration)
      requires DischargeDefined(config, dt)
      modifies this`state
      ensures state == Discharged(config, old(state), dt)
      ensures Abs(state.controlErrorIntegral) <= Abs(old(state.controlErrorIntegral))
      ensures Bounded(old(state)) ==> Bounded(state)
    {
      DischargeNeverGrows(config, state, dt);
      state := state.(controlErrorIntegrand := 0.0);
      var factor;
      if config.integralDischargeTimeConstant == 0.0 {
        // dt/T is an infinity of the sign of dt, saturated to 0 or 1
        factor := if dt > 0.0 then 0.0 else 1.0;
      } else {
        factor := Clamp(1.0 - dt / config.integralDischargeTimeConstant, 0.0, 1.0);
      }
      state := state.(controlErrorIntegral := factor * state.controlErrorIntegral);
    }
  }

  /** A NaN or infinite reference or measurement leaves the state exactly as it was. */
  lemma UpdateSkipsNonFiniteInput(config: Config, s: State, input: Input)
    requires Skipped(input)
    ensures Updated(config, s, input) == s
  {
  }

  /** The output is the unsaturated signal clamped to [MinOutput, MaxOutput]:
      inside the limits when they are ordered, and equal to the unsaturated
      signal whenever that is within them. */
  lemma UpdateSaturatesOutput(config: Config, s: State, input: Input)
    requires Admissible(config, input) && !Skipped(input)
    ensures var r := Updated(config, s, input);
      && r.controlSignal == Clamp(r.unsaturatedControlSignal, config.minOutput, config.maxOutput)
      && (config.minOutput <= config.maxOutput ==> config.minOutput <= r.controlSignal <= config.maxOutput)
      && (config.minOutput <= r.unsaturatedControlSignal <= config.maxOutput ==>
            r.controlSignal == r.unsaturatedControlSignal)
  {
    ClampProperties(UnsaturatedSignal(config, s, input), config.minOutput, config.maxOutput);
  }

  /** Whatever the old state, a non-skipped update stores only finite error
      quantities. */
  lemma UpdateBoundsStoredFields(config: Config, s: State, input: Input)
    requires Admissible(config, input) && !Skipped(input)
    ensures Bounded(Updated(config, s, input))
  {
    ClampFiniteProperties(ControlError(input));
    ClampFiniteProperties(NewIntegrand(config, s, input));
    ClampFiniteProperties(NewIntegral(s, input));
    ClampFiniteProperties(NewDerivative(config, s, input));
  }

  /** When none of the final clamps bites, the new state is exactly the
      solution of the controller equations, and vice versa. */
  lemma {:induction false} UpdateCharacterized(config: Config, s: State, input: Input, r: State)
    requires Admissible(config, input) && !Skipped(input)
    requires Unclamped(r)
    ensures r == Updated(config, s, input) <==> Equations(config, s, input, r)
  {
    if r == Updated(config, s, input) {
      UpdatedSolvesEquations(config, s, input);
    }
    if Equations(config, s, input, r) {
      EquationsDetermineUpdate(config, s, input, r);
    }
  }

  lemma {:induction false} UpdatedSolvesEquations(config: Config, s: State, input: Input)
    requires Admissible(config, input) && !Skipped(input)
    requires Unclamped(Updated(config, s, input))
    ensures Equations(config, s, input, Updated(config, s, input))
  {
    var r := Updated(config, s, input);
    var e := ControlError(input);
    var d := NewDerivative(config, s, input);
    ClampFiniteProperties(e);
    ClampFiniteProperties(NewIntegrand(config, s, input));
    ClampFiniteProperties(NewIntegral(s, input));
    ClampFiniteProperties(d);
    assert r.controlError == e;
    assert r.controlErrorIntegral == NewIntegral(s, input);
    assert r.controlErrorDerivative == d;
    assert r.controlErrorIntegrand == NewIntegrand(config, s, input);
    LowPassSolvesFilterEquation(1.0, e - s.controlError, s.controlErrorDerivative,
                                input.samplingInterval, config.lowPassTimeConstant, d);
  }

  lemma {:induction false} EquationsDetermineUpdate(config: Config, s: State, input: Input, r: State)
    requires Admissible(config, input) && !Skipped(input)
    requires Unclamped(r) && Equations(config, s, input, r)
    ensures r == Updated(config, s, input)
  {
    var e := ControlError(input);
    var d := NewDerivative(config, s, input);
    LowPassSolvesFilterEquation(1.0, e - s.controlError, s.controlErrorDerivative,
                                input.samplingInterval, config.lowPassTimeConstant, r.controlErrorDerivative);
    ClampFiniteProperties(r.controlError);
    ClampFiniteProperties(r.controlErrorIntegrand);
    ClampFiniteProperties(r.controlErrorIntegral);
    ClampFiniteProperties(r.controlErrorDerivative);
    assert r.controlError == e;
    assert r.controlErrorIntegral == NewIntegral(s, input);
    assert r.controlErrorDerivative == d;
    assert r.unsaturatedControlSignal == UnsaturatedSignal(config, s, input);
    assert r.controlSignal == SaturatedSignal(config, s, input);
    assert r.controlErrorIntegrand == NewIntegrand(config, s, input);
  }

  /** From the zero state the filtered derivative is e / (dt + Tf), the
      value the tracking-controller test expects. */
  lemma {:induction false} DerivativeFromRest(config: Config, input: Input)
    requires Admissible(config, input) && !Skipped(input)
    ensures var dt := input.samplingInterval;
      var tf := config.lowPassTimeConstant;
      var e := input.referenceSignal.value - input.actualSignal.value;
      && dt + tf != 0.0
      && Updated(config, ZeroState, input).controlErrorDerivative == ClampFinite(e / (dt + tf))
  {
    LowPassFromRest(1.0, ControlError(input), input.samplingInterval, config.lowPassTimeConstant);
  }

  /** Without saturation, or with the anti-windup gain off, the stored
      integrand is the stored control error. */
  lemma IntegrandWithoutSaturation(config: Config, s: State, input: Input)
    requires Admissible(config, input) && !Skipped(input)
    requires config.antiWindUpGain == 0.0
             || config.minOutput <= UnsaturatedSignal(config, s, input) <= config.maxOutput
    ensures var r := Updated(config, s, input);
      r.controlErrorIntegrand == r.controlError
  {
    var u := UnsaturatedSignal(config, s, input);
    ClampProperties(u, config.minOutput, config.maxOutput);
    assert config.antiWindUpGain * (SaturatedSignal(config, s, input) - u) == 0.0;
    assert NewIntegrand(config, s, input) == AntiWindupIntegrand(ControlError(input), config.antiWindUpGain, SaturatedSignal(config, s, input), u);
    assert NewIntegrand(config, s, input) == ControlError(input);
  }

  /** The anti-windup correction winds the integrator back: with a
      non-negative anti-windup gain and ordered limits, saturation at the
      upper limit stores an integrand no larger than the error, and at the
      lower limit one no smaller. */
  lemma {:induction false} IntegrandOpposesSaturation(config: Config, s: State, input: Input)
    requires Admissible(config, input) && !Skipped(input)
    requires config.antiWindUpGain >= 0.0 && config.minOutput <= config.maxOutput
    ensures var v := UnsaturatedSignal(config, s, input);
      var r := Updated(config, s, input);
      && (v > config.maxOutput ==> r.controlErrorIntegrand <= r.controlError)
      && (v < config.minOutput ==> r.controlErrorIntegrand >= r.controlError)
  {
    var v := UnsaturatedSignal(config, s, input);
    var u := SaturatedSignal(config, s, input);
    var e := ControlError(input);
    var n := NewIntegrand(config, s, input);
    var r := Updated(config, s, input);
    assert r.controlErrorIntegrand == ClampFinite(n) && r.controlError == ClampFinite(e);
    assert n == AntiWindupIntegrand(e, config.antiWindUpGain, u, v);
    ClampProperties(v, config.minOutput, config.maxOutput);
    if v > config.maxOutput {
      CorrectionOpposesGap(e, config.antiWindUpGain, u, v);
      ClampMonotone(n, e, -MAXF, MAXF);
    }
    if v < config.minOutput {
      CorrectionOpposesGap(e, config.antiWindUpGain, u, v);
      ClampMonotone(e, n, -MAXF, MAXF);
    }
  }

  /** Discharge zeroes the integrand, never increases the magnitude of the
      integral nor flips its sign, and touches nothing else. */
  lemma {:induction false} DischargeNeverGrows(config: Config, s: State, dt: Duration)
    requires DischargeDefined(config, dt)
    ensures var r := Discharged(config, s, dt);
      && r.controlErrorIntegrand == 0.0
      && Abs(r.controlErrorIntegral) <= Abs(s.controlErrorIntegral)
      && (r.controlErrorIntegral == 0.0 || (r.controlErrorIntegral < 0.0 <==> s.controlErrorIntegral < 0.0))
      && r.controlError == s.controlError
      && r.controlErrorDerivative == s.controlErrorDerivative
      && r.controlSignal == s.controlSignal
      && r.unsaturatedControlSignal == s.unsaturatedControlSignal
      && (Bounded(s) ==> Bounded(r))
  {
    var r := Discharged(config, s, dt);
    var f := DischargeFactor(config, dt);
    assert r.controlErrorIntegral == f * s.controlErrorIntegral;
    assert 0.0 <= f <= 1.0 by {
      if config.integralDischargeTimeConstant != 0.0 {
        ClampProperties(1.0 - dt / config.integralDischargeTimeConstant, 0.0, 1.0);
      }
    }
    ScaleByUnitFactor(f, s.controlErrorIntegral);
  }

  /** With a positive time constant T: a non-positive interval leaves the
      integral alone, and an interval of at least T empties it. */
  lemma {:induction false} DischargeLimits(config: Config, s: State, dt: Duration)
    requires config.integralDischargeTimeConstant > 0.0
    ensures dt <= 0.0 ==> Discharged(config, s, dt).controlErrorIntegral == s.controlErrorIntegral
    ensures dt >= config.integralDischargeTimeConstant ==> Discharged(config, s, dt).controlErrorIntegral == 0.0
  {
    var t := config.integralDischargeTimeConstant;
    QuotientBounds(dt, t);
    ClampProperties(1.0 - dt / t, 0.0, 1.0);
  }

  /** With the time constant left at its zero value, a positive interval
      empties the integral and a negative one leaves it alone. */
  lemma {:induction false} DischargeWithoutTimeConstant(config: Config, s: State, dt: Duration)
    requires config.integralDischargeTimeConstant == 0.0 && dt != 0.0
    ensures dt > 0.0 ==> Discharged(config, s, dt).controlErrorIntegral == 0.0
    ensures dt < 0.0 ==> Discharged(config, s, dt).controlErrorIntegral == s.controlErrorIntegral
    ensures Discharged(config, s, dt).controlErrorIntegrand == 0.0
  {
    assert Discharged(config, s, dt).controlErrorIntegral == DischargeFactor(config, dt) * s.controlErrorIntegral;
  }

  /** The discharge scenario of the test suite: with T = 10 s, a 10 ms
      discharge takes an integral of 1000 to 999. */
  lemma DischargeExample(config: Config, s: State)
    requires config.integralDischargeTimeConstant == 10.0
    requires s.controlErrorIntegral == 1000.0
    ensures Discharged(config, s, 0.01).controlErrorIntegral == 999.0
  {
  }

  /** One call on a controller, as a value. */
  datatype Call = UpdateCall(input: Input) | ResetCall | DischargeCall(dt: Duration)

  predicate Allowed(config: Config, call: Call)
  {
    match call
    case UpdateCall(input) => Admissible(config, input)
    case ResetCall => true
    case DischargeCall(dt) => DischargeDefined(config, dt)
  }

  function Apply(config: Config, s: State, call: Call): State
    requires Allowed(config, call)
  {
    match call
    case UpdateCall(input) => Updated(config, s, input)
    case ResetCall => ZeroState
    case DischargeCall(dt) => Discharged(config, s, dt)
  }

  /** The state after a sequence of calls, first call first. */
  function Run(config: Config, s: State, calls: seq<Call>): State
    requires forall k :: 0 <= k < |calls| ==> Allowed(config, calls[k])
    decreases |calls|
  {
    if calls == [] then s else Run(config, Apply(config, s, calls[0]), calls[1..])
  }

  /** From a finite state, every sequence of updates, resets and discharges
      keeps the stored error quantities finite. */
  lemma {:induction false} RunKeepsStoredFieldsFinite(config: Config, s: State, calls: seq<Call>)
    requires forall k :: 0 <= k < |calls| ==> Allowed(config, calls[k])
    requires Bounded(s)
    ensures Bounded(Run(config, s, calls))
    decreases |calls|
  {
    if calls != [] {
      match calls[0] {
        case UpdateCall(input) =>
          if !Skipped(input) { UpdateBoundsStoredFields(config, s, input); }
        case ResetCall =>
        case DischargeCall(dt) =>
          DischargeNeverGrows(config, s, dt);
      }
      RunKeepsStoredFieldsFinite(config, Apply(config, s, calls[0]), calls[1..]);
    }
  }

  /** Reset always lands on the zero state, so two resets in a row are one. */
  lemma ResetIdempotent(config: Config, s: State)
    ensures Run(config, s, [ResetCall, ResetCall]) == Run(config, s, [ResetCall]) == ZeroState
  {
    assert [ResetCall, ResetCall][1..] == [ResetCall];
    assert [ResetCall][1..] == [];
  }

  /** The proportional-only scenario of the test suite: Kp = 1, limits
      [-10, 10], references 1, 50, -50 against a measurement of 0 give the
      outputs 1, 10 and -10. */
  method ProportionalScenario() returns (signals: seq<real>)
    ensures signals == [1.0, 10.0, -10.0]
  {
    var c := new AntiWindupController(Config(
      proportionalGain := 1.0, integralGain := 0.0, derivativeGain := 0.0, antiWindUpGain := 0.0,
      integralDischargeTimeConstant := 10.0, lowPassTimeConstant := 1.0,
      maxOutput := 10.0, minOutput := -10.0));
    signals := [];
    var references := [1.0, 50.0, -50.0];
    for k := 0 to 3
      invariant c.config.proportionalGain == 1.0 && c.config.integralGain == 0.0 && c.config.derivativeGain == 0.0
      invariant c.config.lowPassTimeConstant == 1.0
      invariant c.config.minOutput == -10.0 && c.config.maxOutput == 10.0
      invariant |signals| == k
      invariant forall j :: 0 <= j < k ==> signals[j] == Clamp(references[j], -10.0, 10.0)
    {
      c.Update(Input(Finite(references[k]), Finite(0.0), 0.0, 0.01));
      signals := signals + [c.state.controlSignal];
    }
  }
}
