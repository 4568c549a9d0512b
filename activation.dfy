/**
 * The activation table of lib/activation.js: three scalar functions,
 * selected by the name a network is configured with.
 */
module Activation {
  import opened Wrappers

  /** The entries of the table. */
  datatype Func = Sigmoid | Tanh | Relu

  /** The key under which each entry is stored. */
  function Name(f: Func): string
  {
    match f
    case Sigmoid => "sigmoid"
    case Tanh => "tanh"
    case Relu => "relu"
  }

  /**
   * `activation[name]`: an entry for exactly the three keys, and nothing for
   * any other name that is not inherited from Object.prototype.
   */
  function Lookup(name: string): (r: Option<Func>)
    ensures r.Some? ==> Name(r.value) == name
  {
    if name == "sigmoid" then Some(Sigmoid)
    else if name == "tanh" then Some(Tanh)
    else if name == "relu" then Some(Relu)
    else None
  }

  /** Looking up an entry's own key finds that entry, so every entry is reachable by name. */
  lemma LookupName(f: Func)
    ensures Lookup(Name(f)) == Some(f)
  {
  }

  /** A positive real: what Math.exp returns. */
  type Positive = r: real | r > 0.0 witness 1.0

  /**
   * The two functions of JavaScript's Math object that the table calls.
   * They are foreign code: the model knows only that exp is positive
   * everywhere, and uses exp(0) = 1 where a lemma states it.
   */
  datatype MathLib = MathLib(exp: real -> Positive, tanh: real -> real)

  /** sigmoid(x) = 1 / (1 + e^-x), which lies strictly between 0 and 1. */
  function SigmoidAt(m: MathLib, x: real): (r: real)
    ensures 0.0 < r < 1.0
  {
    var e := m.exp(-x);
    assert 1.0 + e > 1.0;
    1.0 / (1.0 + e)
  }

  /** tanh(x) = Math.tanh(x). */
  function TanhAt(m: MathLib, x: real): real
  {
    m.tanh(x)
  }

  /** relu(x) = Math.max(0, x): the least value that is at least 0 and at least x. */
  function ReluAt(x: real): (r: real)
    ensures 0.0 <= r && x <= r
    ensures r == 0.0 || r == x
  {
    if x < 0.0 then 0.0 else x
  }

  /** `activation[f](x)`: sigmoid stays inside (0, 1) and relu is never negative. */
  function Apply(f: Func, m: MathLib, x: real): (r: real)
    ensures f == Sigmoid ==> 0.0 < r < 1.0
    ensures f == Relu ==> 0.0 <= r
  {
    match f
    case Sigmoid => SigmoidAt(m, x)
    case Tanh => TanhAt(m, x)
    case Relu => ReluAt(x)
  }

  /** sigmoid(0) = 1/2, because exp(0) = 1. */
  lemma SigmoidAtZero(m: MathLib)
    requires m.exp(0.0) == 1.0
    ensures SigmoidAt(m, 0.0) == 0.5
  {
  }

  /** relu passes non-negative inputs through and maps negative ones to 0. */
  lemma ReluCases(x: real)
    ensures 0.0 <= x ==> ReluAt(x) == x
    ensures x < 0.0 ==> ReluAt(x) == 0.0
  {
  }

  /** Applying relu twice is the same as applying it once. */
  lemma ReluIdempotent(x: real)
    ensures ReluAt(ReluAt(x)) == ReluAt(x)
  {
  }

  /** relu never decreases when its input grows. */
  lemma ReluMonotone(x: real, y: real)
    requires x <= y
    ensures ReluAt(x) <= ReluAt(y)
  {
  }
}
