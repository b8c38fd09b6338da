/** Numeric building blocks shared by every controller variant: Go's float64
    limits and saturation idiom, the conversion of a time.Duration to seconds,
    and one step of the first-order low-pass filter that smooths the
    derivative term.  All arithmetic is over exact reals. */
module Numeric {

  /** math.MaxFloat64, written out exactly: (2^53 - 1) * 2^971. */
  const MAXF: real := 179769313486231570814527423731704356798070567525844996598917476803157260780028538760589558632766878171540458953514382464234321326889464182768467546703537516986049910576551282076245490090389328944075868508455133942304583236903222948165808559332123348274797826204144723168738177180919299881250404026184124858368.0

  /** A float64 measurement as far as the controllers care: either a finite
      value or one of the three non-finite kinds that math.IsNaN and
      math.IsInf detect. */
  datatype Float64 = Finite(value: real) | NaN | PosInf | NegInf

  /** A time.Duration, represented by the only view of it the controllers
      ever take: its length in seconds, time.Duration.Seconds(). */
  type Duration = real

  /** math.Min for ordinary (non-NaN) operands. */
  function Min(a: real, b: real): real
  {
    if a <= b then a else b
  }

  /** math.Max for ordinary (non-NaN) operands. */
  function Max(a: real, b: real): real
  {
    if a <= b then b else a
  }

  /** The saturation idiom every controller uses,
      math.Max(lo, math.Min(hi, x)).  The lower bound wins when the bounds
      are crossed (lo > hi). */
  function Clamp(x: real, lo: real, hi: real): real
  {
    Max(lo, Min(hi, x))
  }

  /** What saturation guarantees: the result is never below lo, never
      above hi when the bounds are ordered, equal to x when x is within
      them, and the violated bound otherwise. */
  lemma ClampProperties(x: real, lo: real, hi: real)
    ensures lo <= Clamp(x, lo, hi)
    ensures lo <= hi ==> Clamp(x, lo, hi) <= hi
    ensures lo <= x <= hi ==> Clamp(x, lo, hi) == x
    ensures x <= lo ==> Clamp(x, lo, hi) == lo
    ensures lo <= hi <= x ==> Clamp(x, lo, hi) == hi
    ensures hi < lo ==> Clamp(x, lo, hi) == lo
  {
  }

  /** Saturation preserves order. */
  lemma ClampMonotone(x: real, y: real, lo: real, hi: real)
    requires x <= y
    ensures Clamp(x, lo, hi) <= Clamp(y, lo, hi)
  {
  }

  /** Saturation into the finite float64 range [-MaxFloat64, MaxFloat64]. */
  function ClampFinite(x: real): real
  {
    Clamp(x, -MAXF, MAXF)
  }

  lemma ClampFiniteProperties(x: real)
    ensures -MAXF <= ClampFinite(x) <= MAXF
    ensures -MAXF <= x <= MAXF ==> ClampFinite(x) == x
    ensures -MAXF < ClampFinite(x) < MAXF ==> ClampFinite(x) == x
  {
  }

  /** The filter step below divides by the time constant and by
      dt/tf + 1; Go turns a zero divisor into an infinity, the model
      excludes it. */
  predicate FilterDefined(dt: real, tf: real)
  {
    tf != 0.0 && dt / tf + 1.0 != 0.0
  }

  /** One backward-Euler step of the low-pass filtered derivative
      ((gain/tf) * delta + previous) / (dt/tf + 1), where delta is the change
      of the control error since the previous sample, dt the sampling
      interval and tf the filter time constant (all in seconds). */
  function LowPass(gain: real, delta: real, previous: real, dt: real, tf: real): real
    requires FilterDefined(dt, tf)
  {
    ((gain / tf) * delta + previous) / (dt / tf + 1.0)
  }

  /** The filter step is the unique solution y of the backward-Euler
      discretisation of tf * y' + y = gain * e', that is
      tf * (y - previous) + dt * y = gain * delta. */
  lemma {:induction false} LowPassSolvesFilterEquation(gain: real, delta: real, previous: real, dt: real, tf: real, y: real)
    requires FilterDefined(dt, tf)
    ensures y == LowPass(gain, delta, previous, dt, tf) <==> tf * (y - previous) + dt * y == gain * delta
  {
    var den := dt / tf + 1.0;
    var num := (gain / tf) * delta + previous;
    assert tf * den == dt + tf by {
      assert tf * (dt / tf) == dt;
    }
    assert tf * num == gain * delta + tf * previous by {
      assert tf * ((gain / tf) * delta) == gain * delta;
    }
    assert y == num / den <==> y * den == num;
    assert y * den == num <==> tf * (y * den) == tf * num;
    assert tf * (y * den) == y * (dt + tf);
  }

  /** Starting from rest (no previous error, no previous derivative), the
      filter step gives gain * e / (dt + tf). */
  lemma {:induction false} LowPassFromRest(gain: real, e: real, dt: real, tf: real)
    requires FilterDefined(dt, tf)
    ensures dt + tf != 0.0
    ensures LowPass(gain, e, 0.0, dt, tf) == gain * e / (dt + tf)
  {
    var y := LowPass(gain, e, 0.0, dt, tf);
    FilterDenominator(dt, tf);
    LowPassSolvesFilterEquation(gain, e, 0.0, dt, tf, y);
    QuotientUnique(gain * e, dt + tf, y);
  }

  lemma FilterDenominator(dt: real, tf: real)
    requires FilterDefined(dt, tf)
    ensures dt + tf == tf * (dt / tf + 1.0) && dt + tf != 0.0
  {
    assert tf * (dt / tf) == dt;
  }

  lemma QuotientUnique(a: real, d: real, y: real)
    requires d != 0.0 && y * d == a
    ensures y == a / d
  {
  }

  /** The integrand of tracking-mode anti-windup: the control error plus
      the anti-windup gain times the gap between the signal applied to the
      plant and the one the controller computed. */
  function AntiWindupIntegrand(e: real, gain: real, applied: real, computed: real): real
  {
    e + gain * (applied - computed)
  }

  /** With a non-negative gain, the integrand lies below the error when
      the applied signal is below the computed one, and above it when
      above. */
  lemma {:induction false} CorrectionOpposesGap(e: real, gain: real, applied: real, computed: real)
    requires gain >= 0.0
    ensures applied <= computed ==> AntiWindupIntegrand(e, gain, applied, computed) <= e
    ensures applied >= computed ==> AntiWindupIntegrand(e, gain, applied, computed) >= e
  {
    if applied <= computed {
      ProductNonNegative(gain, computed - applied);
      assert gain * (applied - computed) == -(gain * (computed - applied));
    } else {
      ProductNonNegative(gain, applied - computed);
    }
  }

  /** The factor the tracking and saturated controllers scale their
      integral part by on discharge, math.Max(0, math.Min(1 - dt*k, 1)),
      k being the inverse of the discharge time constant. */
  function DecreaseFactor(dt: Duration, k: real): real
  {
    Clamp(1.0 - dt * k, 0.0, 1.0)
  }

  /** The decrease factor lies in [0, 1]; it is 1 when dt*k <= 0 (nothing
      is discharged) and 0 once dt*k >= 1 (everything is). */
  lemma DecreaseFactorRange(dt: Duration, k: real)
    ensures 0.0 <= DecreaseFactor(dt, k) <= 1.0
    ensures dt * k <= 0.0 ==> DecreaseFactor(dt, k) == 1.0
    ensures dt * k >= 1.0 ==> DecreaseFactor(dt, k) == 0.0
  {
    ClampProperties(1.0 - dt * k, 0.0, 1.0);
  }

  /** Scaling by a factor in [0, 1], as every integral discharge does,
      never moves a value away from zero nor flips its sign. */
  lemma {:induction false} ScaleByUnitFactor(f: real, v: real)
    requires 0.0 <= f <= 1.0
    ensures Abs(f * v) <= Abs(v)
    ensures f * v == 0.0 || (f * v < 0.0 <==> v < 0.0)
  {
    var a := Abs(v);
    assert 0.0 <= f * a by { ProductNonNegative(f, a); }
    assert f * a <= a by { ProductNonNegative(1.0 - f, a); }
    assert f * v == f * a || f * v == -(f * a);
    assert Abs(f * v) == f * a;
  }

  /** For t > 0, the quotient x / t is at most 0 when x is, and at least 1
      when x >= t. */
  lemma QuotientBounds(x: real, t: real)
    requires t > 0.0
    ensures x <= 0.0 ==> x / t <= 0.0
    ensures x >= t ==> x / t >= 1.0
  {
    var q := x / t;
    assert q * t == x;
    if q > 0.0 {
      ProductPositive(q, t);
    }
    if q < 1.0 {
      ProductPositive(1.0 - q, t);
    }
  }

  lemma ProductPositive(a: real, b: real)
    requires 0.0 < a && 0.0 < b
    ensures 0.0 < a * b
  {
  }

  lemma ProductNonNegative(a: real, b: real)
    requires 0.0 <= a && 0.0 <= b
    ensures 0.0 <= a * b
  {
  }

  function Abs(x: real): (r: real)
    ensures r >= 0.0 && (r == x || r == -x)
  {
    if x < 0.0 then -x else x
  }
}
