/**
 Concrete instances of the dual-number rules at `real`: the two unit
 scenarios of the implementation and a two-fold composition of `exp`.
 */
module Scenarios {
  import opened DualNumber
  import opened ForwardMode

  /** Seed `(1, 1)` plus the constant `5` gives primal `6` and keeps the
      tangent `1`. */
  lemma AddScenario()
    ensures AddConst(Dual(1.0, 1.0), 5.0, Sum) == Dual(6.0, 1.0)
  {
  }

  /** Seed `(5, 1)` under `exp` gives `exp(5)` in both components, whatever
      function stands for the exponential. */
  lemma ExpScenario(exp: real -> real)
    ensures DualOps(ScalarOps(exp), Product).exp(Dual(5.0, 1.0)) == Dual(exp(5.0), exp(5.0))
  {
  }

  /** Composition of the chain rule: from the unit seed at `x`,
      `exp(exp(x))` carries the tangent `exp(x) * exp(exp(x))`, the
      derivative of `exp . exp` at `x`. */
  lemma ExpExpComposition(x: real, exp: real -> real)
    ensures DualOps(ScalarOps(exp), Product).exp(DualOps(ScalarOps(exp), Product).exp(Dual(x, 1.0)))
            == Dual(exp(exp(x)), exp(x) * exp(exp(x)))
    ensures Forward(ExpOf(ExpOf(Var)), Dual(x, 1.0), exp).tangent == Derivative(ExpOf(ExpOf(Var)), x, exp)
  {
    var ops := DualOps(ScalarOps(exp), Product);
    var inner := ops.exp(Dual(x, 1.0));
    assert inner == Dual(exp(x), exp(x));
    var outer := ops.exp(inner);
    assert outer.primal == exp(exp(x));
    assert outer.tangent == Product(exp(x), exp(exp(x)));
    assert Product(exp(x), exp(exp(x))) == exp(x) * exp(exp(x));
    UnitSeed(ExpOf(ExpOf(Var)), x, exp);
  }
}
