# pid-go controllers in Dafny

This project models the discrete-time PID controllers of the Go package
`pid` (einride/pid-go), including two revisions of its `SimpleController`:
simplecontroller.go and simple_controller.go. The latter is declared in
package `pid` too, although its doc comment says "Package speed". Each controller is a struct with tuning fields and a few state
fields. `Update` overwrites the state in place once per sampling interval,
`Reset` zeroes it, and some controllers have `DischargeIntegral`, which
bleeds off the integral when the controller is inactive.

There is one Dafny module per Go file. Each module has a `class` with the
Go struct's state, and methods that mirror the Go methods' field
assignments in order. Each method is proved equal to a pure specification
function of the old state (`Updated`, `Discharged`, `ZeroState`). Lemmas then
state what the controller promises about those functions:

- saturation of the output;
- the anti-windup and tracking correction;
- the low-pass filtered derivative as the solution of its discretised filter equation;
- the stored fields kept finite;
- the behaviour of integral discharge;
- the scenarios of the package's tests.

| module | Go file | controller |
|---|---|---|
| `Numeric` | shared | `math.Max(lo, math.Min(hi, x))` saturation, `math.MaxFloat64`, one low-pass filter step, the discharge factor |
| `AntiWindup` | antiwindupcontroller.go | `AntiWindupController`: NaN/Inf guard, integral of the corrected error, ±MaxFloat64 clamps of the stored fields, discharge over a time constant |
| `Tracking` | trackingcontroller.go | `TrackingController`: bumpless transfer. The integrand compares the externally applied signal with the unsaturated signal of the previous call. It returns the saturated signal and stores the unsaturated one |
| `Saturated` | saturatedcontroller.go | `SaturatedController`: self anti-windup on the current saturated output, gain-weighted integral part, discharge by a decrease factor |
| `SaturatedPid` | saturated.go | `SaturatedPID`: the same update with other field names, `CutOffFrequency` used as the filter time constant, no discharge; proved to agree with `Saturated` |
| `Simple` | simplecontroller.go | `SimpleController`: plain PID with an unfiltered difference-quotient derivative |
| `SimpleSpeed` | simple_controller.go | the `SimpleController` of simple_controller.go: flat fields, the same arithmetic as `Simple`, proved to move its fields as `Simple` moves its state |

Numbers are exact reals. Go's `float64` becomes `real`. A `time.Duration`
becomes the number of seconds that `Duration.Seconds()` yields, because
every use of a duration in the controllers goes through `Seconds()`.
`math.MaxFloat64` is written out exactly as `Numeric.MAXF`. The reference
and measurement of the anti-windup controller are values of
`Float64 = Finite(real) | NaN | PosInf | NegInf`, so that its
`math.IsNaN`/`math.IsInf` guard is modelled.

The variants differ, and the model follows the Go code of each file rather
than one unified controller:

- Only `AntiWindupController` guards against non-finite inputs and clamps its stored fields to ±MaxFloat64.
- `TrackingController` corrects its integrand with the unsaturated signal stored by the previous call, not the current one (`Tracking.TrackingLagsOneSample`).
- `TrackingController` stores the unsaturated signal and returns the saturated one.
- `SaturatedController` and `SaturatedPID` use the saturated output of the current call.

## Model

| member | source | states |
|---|---|---|
| Numeric.ClampProperties | antiwindupcontroller.go:91 | `math.Max(lo, math.Min(hi, x))` is never below `lo`, is at most `hi` when `lo <= hi`, is `x` when `x` is within the bounds, and is the violated bound otherwise. The lower bound wins when the bounds cross. |
| Numeric.ClampFiniteProperties | antiwindupcontroller.go:93-96 | Clamping to ±MaxFloat64 always yields a finite value and leaves a finite value unchanged. A result strictly inside the range is the input itself. |
| Numeric.LowPassSolvesFilterEquation | antiwindupcontroller.go:87-88 | The derivative step `((K/Tf)·Δe + D)/(dt/Tf + 1)` is the unique `y` with `Tf·(y − D) + dt·y = K·Δe`, the backward-Euler discretisation of `Tf·y' + y = K·e'` (both directions). |
| Numeric.LowPassFromRest | trackingcontroller.go:66-67 | With a zero previous derivative, a change of error `e` gives the filter step `K·e/(dt + Tf)`, the derivative part an update computes from the zero state. |
| Numeric.DecreaseFactorRange | trackingcontroller.go:90-91 | The discharge factor `clamp(1 − dt·k, 0, 1)` lies in [0, 1]. It is 1 when `dt·k <= 0` and 0 when `dt·k >= 1`. |
| Numeric.ScaleByUnitFactor | saturatedcontroller.go:82 | Multiplying by a factor in [0, 1] never increases a magnitude and never flips a sign. |
| AntiWindup.AntiWindupController.constructor | antiwindupcontroller.go:17-22 | A controller literal holds the given config and the zero state. |
| AntiWindup.AntiWindupController.Reset | antiwindupcontroller.go:73-75 | The state becomes the zero value. The config is outside the frame and stays unchanged. |
| AntiWindup.AntiWindupController.Update | antiwindupcontroller.go:78-97 | The Go field assignments, in order, produce exactly `Updated(config, old state, input)`. A non-finite reference or measurement leaves the state untouched. Otherwise all four stored error fields are finite and, for ordered limits, `MinOutput <= ControlSignal <= MaxOutput`. |
| AntiWindup.AntiWindupController.DischargeIntegral | antiwindupcontroller.go:101-107 | Defined for every time constant and interval except both zero. The state becomes `Discharged(...)`, and the integral's magnitude does not grow. A finite state stays finite. |
| AntiWindup.UpdateSkipsNonFiniteInput | antiwindupcontroller.go:80-83 | If the reference or measurement is NaN or ±Inf, the update leaves every state field exactly as it was. |
| AntiWindup.UpdateSaturatesOutput | antiwindupcontroller.go:89-91 | `ControlSignal` is `UnsaturatedControlSignal` saturated to the limits. It lies within ordered limits, and equals the unsaturated signal whenever that signal is within them. |
| AntiWindup.UpdateBoundsStoredFields | antiwindupcontroller.go:15-16 | Whatever the old state and inputs, a non-skipped update stores `ControlError`, `ControlErrorIntegrand`, `ControlErrorIntegral` and `ControlErrorDerivative` inside [−MaxFloat64, MaxFloat64]. |
| AntiWindup.UpdateCharacterized | antiwindupcontroller.go:85-96 | When no ±MaxFloat64 clamp bites, a candidate state is the update's result if and only if it solves the controller equations. These are: the error; a backward-Euler integral of the previous integrand; the filter equation; the P+I+D+feed-forward sum; the saturation; and the integrand `e + Kaw·(u − v)`. |
| AntiWindup.UpdatedSolvesEquations | antiwindupcontroller.go:85-92 | The unclamped result of an update satisfies the controller equations. |
| AntiWindup.EquationsDetermineUpdate | antiwindupcontroller.go:85-96 | Any unclamped state satisfying the controller equations is the update's result, so the equations have exactly one solution. |
| AntiWindup.DerivativeFromRest | antiwindupcontroller.go:87-88 | From the zero state the stored derivative is `e/(dt + Tf)`, clamped to the finite range. |
| AntiWindup.IntegrandWithoutSaturation | antiwindupcontroller.go:92-93 | With `AntiWindUpGain = 0`, or an unsaturated signal within the limits, the stored integrand equals the stored control error. |
| AntiWindup.IntegrandOpposesSaturation | antiwindupcontroller.go:89-93 | With a non-negative anti-windup gain and ordered limits, a signal saturated at the upper limit stores an integrand no larger than the error, and one saturated at the lower limit stores an integrand no smaller. The correction winds the integrator back. |
| AntiWindup.DischargeNeverGrows | antiwindupcontroller.go:101-107 | Discharge zeroes the integrand and never increases the integral's magnitude or flips its sign. It leaves the error, derivative and both control signals unchanged, and keeps a finite state finite. |
| AntiWindup.DischargeLimits | antiwindupcontroller.go:103-106 | With `T > 0`, a non-positive `dt` leaves the integral unchanged and `dt >= T` empties it. |
| AntiWindup.DischargeWithoutTimeConstant | antiwindupcontroller.go:101-107 | With the time constant left at 0, a positive `dt` empties the integral and a negative `dt` keeps it, as Go's infinite `dt/0` saturates to a factor of 0 or 1. The integrand is zeroed. |
| AntiWindup.DischargeExample | antiwindupcontroller_test.go:249-281 | With `T = 10` s, discharging an integral of 1000 for 10 ms leaves 999. |
| AntiWindup.RunKeepsStoredFieldsFinite | antiwindupcontroller.go:15-16 | Starting from a finite state, any sequence of updates (including NaN/Inf inputs), resets and discharges keeps every stored error quantity finite. |
| AntiWindup.ResetIdempotent | antiwindupcontroller_test.go:233-247 | Reset lands on the zero state whatever the prior state, and two resets equal one. |
| AntiWindup.ProportionalScenario | antiwindupcontroller_test.go:16-62 | With Kp = 1 and limits [−10, 10], references 1, 50 and −50 against 0 give control signals 1, 10 and −10, without a reset in between. |
| Tracking.TrackingController.constructor | trackingcontroller.go:23-42 | A controller literal holds the given gains and limits and the zero state. |
| Tracking.TrackingController.Reset | trackingcontroller.go:52-54 | All five state fields become 0, and the gains and limits stay unchanged. |
| Tracking.TrackingController.Update | trackingcontroller.go:56-75 | The writes, `eI` first (still reading the previous `uV`), yield exactly `Updated(config, old state, sample)`. The returned value is the new `uV` saturated to the limits, and lies within ordered limits. |
| Tracking.TrackingController.DischargeIntegral | trackingcontroller.go:88-92 | The state becomes `Discharged(...)`: `eI = 0` and `uI` scaled by `clamp(1 − dt·k, 0, 1)`. |
| Tracking.OutputSaturates | trackingcontroller.go:74 | The returned value lies within ordered limits. It is the stored unsaturated `uV` when that is within them, the upper limit above them, and the lower limit below them. |
| Tracking.UpdateCharacterized | trackingcontroller.go:63-73 | A candidate state is the update's result if and only if it solves the tracking equations. These are: the error; `uI` growing by `Ki·eI·dt`; the filter equation for `uD`; `uV` as the P+I+D+feed-forward sum; and `eI = e + Kaw·(actualInput − previous uV)`. |
| Tracking.StateIgnoresLimits | trackingcontroller.go:63-74 | The stored state after an update does not depend on `MinOutput` or `MaxOutput`. Only the returned value does. |
| Tracking.TrackingLagsOneSample | trackingcontroller.go:69-72 | Over two updates, the second integrand compares the applied signal with the unsaturated signal computed by the first update. |
| Tracking.IntegrandWithoutTracking | trackingcontroller.go:69 | With `AntiWindUpGain = 0` the new `eI` is the control error. |
| Tracking.DerivativeFromRest | trackingcontroller.go:66-67 | From the zero state `uD = Kd·e/(dt + Tf)`. |
| Tracking.DischargeNeverGrows | trackingcontroller.go:88-92 | Discharge zeroes `eI`. `|uI|` never grows and its sign is kept. `dt·k <= 0` leaves `uI` alone and `dt·k >= 1` zeroes it. `e`, `uD` and `uV` are unchanged. |
| Tracking.ProportionalScenario | trackingcontroller.go:56-75 | With Kp = 1 and limits [−10, 10], targets 1, 50 and −50 against 0 return 1, 10 and −10, while the stored `uV` is 1, 50 and −50. |
| Saturated.SaturatedController.constructor | saturatedcontroller.go:21-40 | A controller literal holds the given gains and limits and the zero state. |
| Saturated.SaturatedController.Reset | saturatedcontroller.go:50-52 | `e`, `eI`, `uI`, `uD` and `u` become 0, and the gains and limits stay unchanged. |
| Saturated.SaturatedController.Update | saturatedcontroller.go:54-67 | The writes, with `u` stored before `eI` reads it back, yield exactly `Updated(config, old state, sample)`. The returned value is the stored `u` and lies within ordered limits. |
| Saturated.SaturatedController.DischargeIntegral | saturatedcontroller.go:80-83 | The state becomes `Discharged(...)`: `eI = 0` and `uI` scaled by `clamp(1 − dt·k, 0, 1)`. |
| Saturated.UpdateSaturatesOutput | saturatedcontroller.go:61 | The stored `u` lies within ordered limits. It is `uV` when `uV` is within them, the upper limit above them, and the lower limit below them. |
| Saturated.IntegrandWithoutSaturation | saturatedcontroller.go:62 | With `AntiWindUpGain = 0`, or `uV` within the limits, the new `eI` is the control error. |
| Saturated.TrackingOpposesSaturation | saturatedcontroller.go:60-62 | With a non-negative anti-windup gain and ordered limits, saturation at the upper limit makes `eI <= e`, and saturation at the lower limit makes `eI >= e`. The correction always winds the integrator back. |
| Saturated.UpdateCharacterized | saturatedcontroller.go:55-65 | A candidate state is the update's result if and only if it solves the saturated controller equations. These are: the error; the integral part; the filter equation; `u` as the saturated PID sum; and `eI = e + Kaw·(u − PID sum)`. |
| Saturated.UpdatedSolvesEquations | saturatedcontroller.go:55-65 | The result of an update satisfies the saturated controller equations. |
| Saturated.EquationsDetermineUpdate | saturatedcontroller.go:55-65 | Any state satisfying the saturated controller equations is the update's result. |
| Saturated.DerivativeFromRest | saturatedcontroller.go:58-59 | From the zero state `uD = Kd·e/(dt + Tf)`. |
| Saturated.DischargeNeverGrows | saturatedcontroller.go:80-83 | Discharge zeroes `eI`. `|uI|` never grows and its sign is kept. `dt·k <= 0` leaves `uI` alone and `dt·k >= 1` zeroes it. `e`, `uD` and `u` are unchanged. |
| Saturated.DischargeScenario | saturatedcontroller.go:80-83 | With a decrease factor of 0.1/s, discharging `uI = 1000` for 10 ms gives 999 and `eI = 0`, with `e = 5`, `uD = 500` and `u = 1` unchanged. |
| Saturated.ProportionalScenario | saturatedcontroller.go:54-67 | With Kp = 1 and limits [−10, 10], targets 1, 50 and −50 against 0 return 1, 10 and −10. |
| SaturatedPid.SaturatedPidController.constructor | saturated.go:23-32 | A struct literal holds the given tuning and the zero state. |
| SaturatedPid.SaturatedPidController.Reset | saturated.go:42-44 | All state fields become 0, and the tuning fields stay unchanged. |
| SaturatedPid.SaturatedPidController.Update | saturated.go:46-58 | The writes yield exactly `Updated(config, old state, sample)`, with `CutOffFrequency` used as a time constant in seconds. The returned value is the stored `u` and lies within ordered limits. |
| SaturatedPid.AgreesWithSaturatedController | saturated.go:46-58 | Under the renaming of gains (`IntegrationGain`, `WindUp`, `CutOffFrequency`), an update of SaturatedPID reaches the state a SaturatedController update reaches from the corresponding state and sample. |
| SaturatedPid.UpdateSaturatesOutput | saturated.go:52-53 | The stored `u` lies within ordered limits. Within the limits `u = uV` and `eI = e`, and with `WindUp = 0` always `eI = e`. |
| SaturatedPid.ProportionalScenario | saturated_test.go:15-50 | With only Kp = 1 and limits [−10, 10], successive targets 1, 50 and −50 against 0 leave the states `{e 1, eI 1, u 1}`, `{e 50, eI 50, u 10}` and `{e −50, eI −50, u −10}`, with zero `uI` and `uD`. |
| Simple.SimpleController.constructor | simplecontroller.go:11-24 | A controller literal holds the given gains and limits and the zero state. |
| Simple.SimpleController.Update | simplecontroller.go:35-41 | The state becomes `Updated(old state, sample)`. The returned value is the PID sum of the new state (`output()`, simplecontroller.go:48-52) saturated to the limits, and lies within ordered limits. |
| Simple.SimpleController.Reset | simplecontroller.go:43-45 | The three state fields become 0, and the gains and limits stay unchanged. |
| Simple.Output | simplecontroller.go:48-52 | `output()`, the unsaturated PID sum of a state. Its contract is stated by `Simple.OutputFromRest` (from rest, after one update, it is `(Kp + Ki·dt + Kd/dt)·(reference − current)`) and by `Simple.OutputSaturates` (the returned value is it, saturated). |
| Simple.UpdateCharacterized | simplecontroller.go:36-39 | A candidate state is the update's result if and only if `errorSize = reference − current`, `errorRate·dt` is the change of the error, and `errorOverTime` grew by `errorSize·dt`. |
| Simple.OutputSaturates | simplecontroller.go:40 | The returned value lies within ordered limits, and equals `output()` when that is within them. |
| Simple.RunIntegratesError | simplecontroller.go:39 | Over any sequence of updates, `errorOverTime` grows by exactly the rectangle-rule integral of the errors, and `errorSize` is the last error. |
| Simple.OutputFromRest | simplecontroller.go:48-52 | From the zero state, `output()` after one update is `(Kp + Ki·dt + Kd/dt)·(reference − current)`. |
| Simple.OutputIncreaseScenario | simplecontroller_test.go:11-24 | With gains 2/1/1 and limits [0, 50], reference 10 against 0 at 100 ms returns 50 (the sum 121, saturated) and stores an error of 10. |
| Simple.OutputDecreaseScenario | simplecontroller_test.go:26-39 | With the same controller, reference 10 against 10 returns 0 and stores an error of 0. |
| Simple.IncreaseFromRest | simplecontroller_test.go:11-24 | On values: from the zero state, one update with reference 10 against 0 at 100 ms stores an error of 10, and its PID sum 121 saturates to 50 under the limits [0, 50]. |
| Simple.DecreaseFromRest | simplecontroller_test.go:26-39 | On values: from the zero state, one update with reference 10 against 10 leaves the zero state, stores an error of 0 and returns 0. |
| SimpleSpeed.SimpleController.constructor | simple_controller.go:9-19 | A struct literal holds the given gains and limits and zero error fields. |
| SimpleSpeed.SimpleController.CalculatePidOutput | simple_controller.go:36-38 | The sum, in this file's term order, is the same PID output as the `pid` package's `SimpleController` of the same fields. |
| SimpleSpeed.SimpleController.Update | simple_controller.go:21-27 | The three error fields move exactly as in the `pid` package's `SimpleController`: new error, difference-quotient rate and error integral. The returned value is the saturated PID output and lies within ordered limits. Gains and limits are outside the frame. |
| SimpleSpeed.SimpleController.Reset | simple_controller.go:29-33 | Exactly the three error fields are zeroed. |
| SimpleSpeed.OutputIncreaseScenario | simple_controller_test.go:10-23 | With gains 2/1/1 and limits [0, 50], reference 10 against 0 at 100 ms returns 50 and stores an error of 10. |
| SimpleSpeed.OutputDecreaseScenario | simple_controller_test.go:25-38 | Reference 10 against 10 returns 0 and stores an error of 0. |
| SimpleSpeed.ResetScenario | simple_controller_test.go:40-63 | A controller holding errors of 10 has, after `Reset`, the zero error state and unchanged gains and limits, so it equals one built from the gains and limits alone. |

## Left out

- `GetState` (trackingcontroller.go:77-86, saturatedcontroller.go:69-78, simplecontroller.go:54-61) is not modelled. It copies the state into an external protobuf telemetry message, with a timestamp and `float32` casts, through foreign libraries. In `simplecontroller.go` it also copies `errorOverTime` into `DerivativeState` (line 59), which looks like a copy slip in that export.
- IEEE-754 arithmetic is not modelled: every intermediate is an exact real. Rounding, overflow of an intermediate to ±Inf, and the NaN that `Inf − Inf` or `0·Inf` would produce are therefore absent. The ±MaxFloat64 clamps of antiwindupcontroller.go are modelled on the exact values. Finite stored fields (`AntiWindup.RunKeepsStoredFieldsFinite`) are a property of this real-valued model, not a guarantee of the Go program. A reference of MaxFloat64 against a measurement of −MaxFloat64 passes the guard, makes `e` and the derivative +Inf, and with `DerivativeGain = 0` the product `0·Inf` is NaN (antiwindupcontroller.go:85-90). `math.Max`/`math.Min` carry that NaN into `ControlSignal` and the stored integrand, and from there into the integral for good.
- Durations are their `Seconds()` value. Nanosecond granularity and the rounding of `Duration.Seconds()` are not modelled.
- Non-finite values are modelled only where the source tests for them: the reference and measurement of `AntiWindupController`. A NaN or infinite feed-forward, gain or applied signal is not modelled.
- Division by zero is excluded by preconditions, not reproduced. Go would produce ±Inf or NaN in these cases:
  - A zero low-pass time constant, or `dt/Tf = −1`, in the filtered controllers (`FilterDefined`).
  - `dt = 0` in both `SimpleController`s.
  - A zero `IntegralDischargeTimeConstant` together with `dt = 0` in `AntiWindupController.DischargeIntegral`, where Go computes 0/0 and stores a NaN integral (`DischargeDefined`). With a zero time constant and `dt ≠ 0`, Go's `dt/0` is an infinity that the saturation turns into a factor of 0 (`dt > 0`, the integral is emptied) or 1 (`dt < 0`, it is kept). The model does the same (`AntiWindup.DischargeWithoutTimeConstant`).
- AntiWindup.UpdateCharacterized: the if-and-only-if with the controller equations is stated only for states none of whose stored error quantities sits exactly on ±MaxFloat64. A clamped field no longer satisfies its equation. `UpdateBoundsStoredFields` covers the clamped case.
- The 500-step convergence tests and the MaxFloat64 stress tests are not modelled. They are asymptotic, floating-point behaviour rather than per-step contracts. The per-step facts they rely on are proved instead: saturation, finite stored fields over any run, and the anti-windup correction opposing saturation (`AntiWindup.IntegrandOpposesSaturation`, `Saturated.TrackingOpposesSaturation`).
- `controller.go` only declares an interface with `Update` and `Reset` signatures. It has no behaviour to model.
- The gains and limits of `TrackingController`, `SaturatedController`, `SaturatedPID` and the `pid` package's `SimpleController` are flat struct fields in Go. Here they are grouped into one `Config` value field, which the methods' frames exclude. `SimpleSpeed` keeps the flat fields.
- The tests written against a `Config`/`Input`-style revision of the tracking and saturated controllers, and against a `Controller` struct, exercise code that is not part of this model. Their arithmetic coincides with the scenarios above where the shown code has the same operation.
