/** The SimpleController of simple_controller.go (declared in package pid,
    though its doc comment names a package speed): the same plain PID
    controller as the SimpleController of simplecontroller.go, written with
    its state and its tuning parameters as flat fields of one struct, and a
    different term order in the output sum. */
module SimpleSpeed {
  import opened Numeric
  import Simple

  class SimpleController {
    var errorOverTime: real
    var errorRate: real
    var errorSize: real

    var proportionalGain: real
    var integrationGain: real
    var derivationGain: real
    var outputLowerLimit: real
    var outputUpperLimit: real

    /** A controller at rest with the given parameters. */
    constructor (kp: real, ki: real, kd: real, lower: real, upper: real)
      ensures proportionalGain == kp && integrationGain == ki && derivationGain == kd
      ensures outputLowerLimit == lower && outputUpperLimit == upper
      ensures errorOverTime == 0.0 && errorRate == 0.0 && errorSize == 0.0
    {
      proportionalGain, integrationGain, derivationGain := kp, ki, kd;
      outputLowerLimit, outputUpperLimit := lower, upper;
      errorOverTime, errorRate, errorSize := 0.0, 0.0, 0.0;
    }

    /** The three state fields, viewed as the pid package's state. */
    function View(): Simple.State
      reads this
    {
      Simple.State(errorOverTime, errorRate, errorSize)
    }

    /** The six tuning fields, viewed as the pid package's configuration. */
    function Tuning(): Simple.Config
      reads this
    {
      Simple.Config(proportionalGain, integrationGain, derivationGain, outputLowerLimit, outputUpperLimit)
    }

    /** calculatePIDOutput: the unsaturated PID sum of the current fields.
        Its ensures only says that this term order is the other
        SimpleController's output() of the same state; what that output is
        after an update from rest is Simple.OutputFromRest, and how the
        returned value saturates it is Simple.OutputSaturates. */
    function CalculatePidOutput(): (r: real)
      reads this
      ensures r == Simple.Output(Tuning(), View())
    {
      proportionalGain * errorSize + derivationGain * errorRate + integrationGain * errorOverTime
    }

    /** One sampling step, field by field as in the Go code; it moves the
        three state fields exactly as the pid package's controller moves its
        state, and returns the same saturated output. */
    method Update(reference: real, current: real, dt: Duration) returns (u: real)
      requires dt != 0.0
      modifies this`errorOverTime, this`errorRate, this`errorSize
      ensures View() == Simple.Updated(old(View()), Simple.Sample(reference, current, dt))
      ensures u == Clamp(Simple.Output(Tuning(), View()), outputLowerLimit, outputUpperLimit)
      ensures outputLowerLimit <= outputUpperLimit ==> outputLowerLimit <= u <= outputUpperLimit
    {
      var previousError := errorSize;
      errorSize := reference - current;
      errorRate := (errorSize - previousError) / dt;
      errorOverTime := errorOverTime + errorSize * dt;
      var v := CalculatePidOutput();
      u := Clamp(v, outputLowerLimit, outputUpperLimit);
      ClampProperties(v, outputLowerLimit, outputUpperLimit);
    }

    /** Zeroes the three state fields one by one; the tuning parameters are
        outside the frame. */
    method Reset()
      modifies this`errorOverTime, this`errorRate, this`errorSize
      ensures View() == Simple.ZeroState
    {
      errorOverTime := 0.0;
      errorRate := 0.0;
      errorSize := 0.0;
    }
  }

  /** Gains 2, 1, 1, limits [0, 50], dt = 100 ms: from rest, a reference of
      10 against 0 returns 50 (the PID sum 121, saturated) and stores an
      error of 10. */
  method OutputIncreaseScenario() returns (u: real, error: real)
    ensures u == 50.0 && error == 10.0
  {
    var c := new SimpleController(2.0, 1.0, 1.0, 0.0, 50.0);
    assert c.Tuning() == Simple.ScenarioConfig && c.View() == Simple.ZeroState;
    u := c.Update(10.0, 0.0, 0.1);
    error := c.errorSize;
    Simple.IncreaseFromRest();
  }

  /** The same controller from rest with a reference of 10 against 10
      returns 0 and stores an error of 0. */
  method OutputDecreaseScenario() returns (u: real, error: real)
    ensures u == 0.0 && error == 0.0
  {
    var c := new SimpleController(2.0, 1.0, 1.0, 0.0, 50.0);
    assert c.Tuning() == Simple.ScenarioConfig && c.View() == Simple.ZeroState;
    u := c.Update(10.0, 10.0, 0.1);
    error := c.errorSize;
    Simple.DecreaseFromRest();
  }

  /** Reset zeroes the state and keeps the tuning: a controller holding
      errors of 10 has a zero state and its gains and limits afterwards. */
  method ResetScenario() returns (c: SimpleController)
    ensures c.View() == Simple.ZeroState
    ensures c.Tuning() == Simple.Config(2.0, 1.0, 1.0, 0.0, 50.0)
  {
    c := new SimpleController(2.0, 1.0, 1.0, 0.0, 50.0);
    c.errorOverTime, c.errorRate, c.errorSize := 10.0, 10.0, 10.0;
    c.Reset();
  }
}
