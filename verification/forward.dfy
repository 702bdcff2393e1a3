/**
 The dual-number operations at `real`, checked against a reference.

 A value built by the supported operations from one seed `(x, s)` has a
 construction history: an expression over the seed, constants, `+`, `-`
 and `exp`. `Expr` records such histories. `Eval` is ordinary evaluation
 of the expression and `Derivative` is its derivative at `x`, computed
 by the textbook differentiation rules (sum, difference, constant and
 chain rule). `Forward` runs the same expression through the dual-number
 operations. The soundness theorem says that the forward run always
 yields `(f(x), s * f'(x))`: the primal is the value and the tangent is
 the derivative scaled by the seed direction.

 The exponential is a parameter throughout: any function `exp` may stand
 for the platform one, and its derivative is taken to be itself.
 */
module ForwardMode {
  import opened DualNumber

  /** Component operations of the scalar instantiation. */
  function Sum(p: real, q: real): real { p + q }
  function Difference(p: real, q: real): real { p - q }
  function Product(t: real, p: real): real { t * p }

  /** The construction history of a dual number. */
  datatype Expr =
    | Var                          // the seed itself
    | Const(c: real)               // a constant, seeded with tangent zero
    | Plus(l: Expr, r: Expr)       // Dual + Dual
    | PlusConst(l: Expr, k: real)  // Dual + Primal
    | Minus(l: Expr, r: Expr)      // Dual - Dual
    | MinusConst(l: Expr, k: real) // Dual - Primal
    | ExpOf(arg: Expr)             // DiffOps::exp

  /** Ordinary evaluation at `x`. */
  function Eval(e: Expr, x: real, exp: real -> real): real
  {
    match e
    case Var => x
    case Const(c) => c
    case Plus(l, r) => Eval(l, x, exp) + Eval(r, x, exp)
    case PlusConst(l, k) => Eval(l, x, exp) + k
    case Minus(l, r) => Eval(l, x, exp) - Eval(r, x, exp)
    case MinusConst(l, k) => Eval(l, x, exp) - k
    case ExpOf(a) => exp(Eval(a, x, exp))
  }

  /** The derivative at `x` by the textbook rules: (f + g)' = f' + g',
      (f + c)' = f' + 0, (f - g)' = f' - g', (f - c)' = f' - 0, and
      (exp . g)' = exp(g) * g'. */
  function Derivative(e: Expr, x: real, exp: real -> real): real
  {
    match e
    case Var => 1.0
    case Const(_) => 0.0
    case Plus(l, r) => Derivative(l, x, exp) + Derivative(r, x, exp)
    case PlusConst(l, _) => Derivative(l, x, exp) + 0.0
    case Minus(l, r) => Derivative(l, x, exp) - Derivative(r, x, exp)
    case MinusConst(l, _) => Derivative(l, x, exp) - 0.0
    case ExpOf(a) => exp(Eval(a, x, exp)) * Derivative(a, x, exp)
  }

  /** Runs the expression through the dual-number operations, starting from
      `seed`. The primal channel never looks at a tangent, so it is plain
      evaluation at the seed's primal. */
  function Forward(e: Expr, seed: Dual<real, real>, exp: real -> real): (r: Dual<real, real>)
    ensures r.primal == Eval(e, seed.primal, exp)
  {
    match e
    case Var => seed
    case Const(c) => Dual(c, 0.0)
    case Plus(l, r) => Add(Forward(l, seed, exp), Forward(r, seed, exp), Sum, Sum)
    case PlusConst(l, k) => AddConst(Forward(l, seed, exp), k, Sum)
    case Minus(l, r) => Sub(Forward(l, seed, exp), Forward(r, seed, exp), Difference, Difference)
    case MinusConst(l, k) => SubConst(Forward(l, seed, exp), k, Difference)
    case ExpOf(a) => DualOps(ScalarOps(exp), Product).exp(Forward(a, seed, exp))
  }

  /** `d` is the value and the seed-scaled derivative of `e` at `x`. The
      scaling is written `Product(s, ..)` rather than `s * ..`: with the bare
      product the solver was unstable on the lemmas that rescale a tangent. */
  ghost predicate Represents(d: Dual<real, real>, e: Expr, x: real, s: real, exp: real -> real)
  {
    d.primal == Eval(e, x, exp) && d.tangent == Product(s, Derivative(e, x, exp))
  }

  /** The seed `(x, s)` represents the variable itself. */
  lemma SeedRule(x: real, s: real, exp: real -> real)
    ensures Represents(Dual(x, s), Var, x, s, exp)
  {
  }

  /** A constant seeded with tangent zero represents the constant function. */
  lemma ConstRule(c: real, x: real, s: real, exp: real -> real)
    ensures Represents(Dual(c, 0.0), Const(c), x, s, exp)
  {
  }

  /** `Dual + Dual` implements the sum rule. */
  lemma AddRule(a: Dual<real, real>, b: Dual<real, real>, l: Expr, r: Expr, x: real, s: real, exp: real -> real)
    requires Represents(a, l, x, s, exp) && Represents(b, r, x, s, exp)
    ensures Represents(Add(a, b, Sum, Sum), Plus(l, r), x, s, exp)
  {
    var dl, dr := Derivative(l, x, exp), Derivative(r, x, exp);
    assert s * dl + s * dr == s * (dl + dr);
  }

  /** `Dual + c` implements the constant rule: whatever `c` is, the tangent
      is the one of `l`. */
  lemma AddConstRule(a: Dual<real, real>, l: Expr, k: real, x: real, s: real, exp: real -> real)
    requires Represents(a, l, x, s, exp)
    ensures Represents(AddConst(a, k, Sum), PlusConst(l, k), x, s, exp)
  {
    assert Derivative(PlusConst(l, k), x, exp) == Derivative(l, x, exp);
  }

  /** `Dual - Dual` implements the difference rule. */
  lemma SubRule(a: Dual<real, real>, b: Dual<real, real>, l: Expr, r: Expr, x: real, s: real, exp: real -> real)
    requires Represents(a, l, x, s, exp) && Represents(b, r, x, s, exp)
    ensures Represents(Sub(a, b, Difference, Difference), Minus(l, r), x, s, exp)
  {
  }

  /** `Dual - c` implements the constant rule for subtraction. */
  lemma SubConstRule(a: Dual<real, real>, l: Expr, k: real, x: real, s: real, exp: real -> real)
    requires Represents(a, l, x, s, exp)
    ensures Represents(SubConst(a, k, Difference), MinusConst(l, k), x, s, exp)
  {
    assert Derivative(MinusConst(l, k), x, exp) == Derivative(l, x, exp);
  }

  /** `exp` of a dual number implements the chain rule for the exponential. */
  lemma ExpRule(a: Dual<real, real>, l: Expr, x: real, s: real, exp: real -> real)
    requires Represents(a, l, x, s, exp)
    ensures Represents(DualOps(ScalarOps(exp), Product).exp(a), ExpOf(l), x, s, exp)
  {
    var v, dv := Eval(l, x, exp), Derivative(l, x, exp);
    assert (s * dv) * exp(v) == s * (exp(v) * dv);
  }

  /** Soundness of forward mode: started from the seed `(x, s)`, every
      construction history yields its value and `s` times its derivative. */
  lemma {:induction false} ForwardSound(e: Expr, x: real, s: real, exp: real -> real)
    ensures Represents(Forward(e, Dual(x, s), exp), e, x, s, exp)
  {
    var seed := Dual(x, s);
    match e
    case Var =>
      SeedRule(x, s, exp);
    case Const(c) =>
      ConstRule(c, x, s, exp);
    case Plus(l, r) =>
      ForwardSound(l, x, s, exp);
      ForwardSound(r, x, s, exp);
      AddRule(Forward(l, seed, exp), Forward(r, seed, exp), l, r, x, s, exp);
    case PlusConst(l, k) =>
      ForwardSound(l, x, s, exp);
      AddConstRule(Forward(l, seed, exp), l, k, x, s, exp);
    case Minus(l, r) =>
      ForwardSound(l, x, s, exp);
      ForwardSound(r, x, s, exp);
      SubRule(Forward(l, seed, exp), Forward(r, seed, exp), l, r, x, s, exp);
    case MinusConst(l, k) =>
      ForwardSound(l, x, s, exp);
      SubConstRule(Forward(l, seed, exp), l, k, x, s, exp);
    case ExpOf(a) =>
      ForwardSound(a, x, s, exp);
      ExpRule(Forward(a, seed, exp), a, x, s, exp);
  }

  /** With the unit seed `(x, 1)` the tangent is exactly the derivative. */
  lemma {:induction false} UnitSeed(e: Expr, x: real, exp: real -> real)
    ensures Forward(e, Dual(x, 1.0), exp).tangent == Derivative(e, x, exp)
  {
    ForwardSound(e, x, 1.0, exp);
  }

  /** With the zero seed `(x, 0)` nothing is being differentiated: every
      tangent is zero. */
  lemma {:induction false} ZeroSeed(e: Expr, x: real, exp: real -> real)
    ensures Forward(e, Dual(x, 0.0), exp).tangent == 0.0
  {
    ForwardSound(e, x, 0.0, exp);
  }

  /** The tangent is linear in the seed direction: seeding with `s` scales
      every tangent by `s`. */
  lemma {:induction false} SeedLinearity(e: Expr, x: real, s: real, exp: real -> real)
    ensures Forward(e, Dual(x, s), exp).tangent == Product(s, Forward(e, Dual(x, 1.0), exp).tangent)
  {
    ForwardSound(e, x, s, exp);
    UnitSeed(e, x, exp);
  }
}
