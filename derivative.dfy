/**
 * The derivative table of lib/derivative.js. Each entry takes the output y
 * of its activation, not the activation's input.
 *
 * Two entries are broken as written: tanh refers to a variable that is not
 * bound, so every call throws a ReferenceError, and relu falls off its
 * if-chain at y = 0 and yields `undefined`. The `AsWritten` members model
 * those entries exactly; `Derive`, which the network uses, is the corrected
 * table (1 - y^2 for tanh, 0 for relu at y = 0).
 */
module Derivative {
  import opened Activation

  /** What calling an entry yields as written: a number, `undefined`, or a thrown ReferenceError. */
  datatype Outcome = Number(value: real) | Undefined | ReferenceError

  /** sigmoid'(x) expressed in the output y = sigmoid(x): y (1 - y). */
  function SigmoidSlope(y: real): real
  {
    y * (1.0 - y)
  }

  /** The tanh entry as written: it reads an unbound name and always throws. */
  function TanhSlopeAsWritten(y: real): Outcome
  {
    ReferenceError
  }

  /** The tanh entry as intended: tanh'(x) = 1 - tanh(x)^2 = 1 - y^2. */
  function TanhSlope(y: real): real
  {
    1.0 - y * y
  }

  /** The relu entry as written: 0 below zero, 1 above zero, and nothing at zero. */
  function ReluSlopeAsWritten(y: real): Outcome
  {
    if y < 0.0 then Number(0.0)
    else if y > 0.0 then Number(1.0)
    else Undefined
  }

  /** The relu entry with the kink at zero treated as flat. */
  function ReluSlope(y: real): real
  {
    if y > 0.0 then 1.0 else 0.0
  }

  /** `derivative[f](y)` as written. */
  function DeriveAsWritten(f: Func, y: real): Outcome
  {
    match f
    case Sigmoid => Number(SigmoidSlope(y))
    case Tanh => TanhSlopeAsWritten(y)
    case Relu => ReluSlopeAsWritten(y)
  }

  /** `derivative[f](y)` with both broken entries corrected; this is what the network uses. */
  function Derive(f: Func, y: real): real
  {
    match f
    case Sigmoid => SigmoidSlope(y)
    case Tanh => TanhSlope(y)
    case Relu => ReluSlope(y)
  }

  /** The sigmoid slope vanishes at both saturated outputs, y = 0 and y = 1. */
  lemma SigmoidSlopeRoots()
    ensures SigmoidSlope(0.0) == 0.0 && SigmoidSlope(1.0) == 0.0
  {
  }

  /** The sigmoid slope is symmetric about y = 1/2. */
  lemma SigmoidSlopeSymmetric(y: real)
    ensures SigmoidSlope(y) == SigmoidSlope(1.0 - y)
  {
  }

  /** The sigmoid slope never exceeds 1/4, and is non-negative for outputs in [0, 1]. */
  lemma SigmoidSlopeBounds(y: real)
    ensures SigmoidSlope(y) <= 0.25
    ensures 0.0 <= y <= 1.0 ==> 0.0 <= SigmoidSlope(y)
  {
    assert 0.25 - SigmoidSlope(y) == (y - 0.5) * (y - 0.5);
    if 0.0 <= y <= 1.0 {
      NonNegativeProduct(y, 1.0 - y);
    }
  }

  /** A product of two non-negative reals is non-negative. */
  lemma NonNegativeProduct(a: real, b: real)
    requires 0.0 <= a && 0.0 <= b
    ensures 0.0 <= a * b
  {
  }

  /** At any sigmoid output the slope is strictly positive and at most 1/4. */
  lemma SigmoidSlopeOfOutput(m: MathLib, x: real)
    ensures 0.0 < SigmoidSlope(SigmoidAt(m, x)) <= 0.25
  {
  }

  /** As written, the tanh entry throws whatever its argument. */
  lemma TanhAsWrittenAlwaysThrows(y: real)
    ensures DeriveAsWritten(Tanh, y) == ReferenceError
  {
  }

  /** The corrected tanh slope is 1 at y = 0 and lies in [0, 1] for every output of tanh's range [-1, 1]. */
  lemma TanhSlopeBounds(y: real)
    ensures TanhSlope(0.0) == 1.0
    ensures -1.0 <= y <= 1.0 ==> 0.0 <= TanhSlope(y) <= 1.0
  {
    if -1.0 <= y <= 1.0 {
      assert y * y <= 1.0 by {
        if 0.0 <= y {
          assert y * y <= y * 1.0;
        } else {
          assert y * y == (-y) * (-y) <= (-y) * 1.0;
        }
      }
    }
  }

  /** As written, the relu entry yields 1 above zero, 0 below zero, and `undefined` at zero. */
  lemma ReluAsWrittenCases(y: real)
    ensures y > 0.0 ==> DeriveAsWritten(Relu, y) == Number(1.0)
    ensures y < 0.0 ==> DeriveAsWritten(Relu, y) == Number(0.0)
    ensures DeriveAsWritten(Relu, 0.0) == Undefined
  {
  }

  /**
   * The corrected table is total and agrees with the table as written wherever
   * that yields a number; the written table yields a number exactly for sigmoid
   * and for relu away from zero.
   */
  lemma DeriveAgreesWithWritten(f: Func, y: real)
    ensures DeriveAsWritten(f, y).Number? <==> (f == Sigmoid || (f == Relu && y != 0.0))
    ensures DeriveAsWritten(f, y).Number? ==> Derive(f, y) == DeriveAsWritten(f, y).value
  {
  }

  /** At a relu output the corrected slope is 1 where the input was positive and 0 elsewhere. */
  lemma ReluSlopeOfOutput(x: real)
    ensures Derive(Relu, ReluAt(x)) == if x > 0.0 then 1.0 else 0.0
  {
  }
}
