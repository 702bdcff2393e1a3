/**
 Forward-mode dual numbers: a value (the primal) carried together with its
 derivative along one chosen direction (the tangent).

 Every operation is generic in the primal type `P` and the tangent type `T`.
 The component operations an operation needs are passed to it as function
 parameters, standing for the trait bounds of the Rust implementation
 (`Primal: Add`, `Tangent: Mul<Primal>`, ...). Instantiated at `real` they
 give the scalar case, `Dual<f64, f64>`, the only one the Rust bounds admit
 for `exp`: the generic `exp` impl asks for `Primal: Copy`, which `Dual`
 does not implement, so a `Dual` whose primal is a `Dual` has no `exp`.
 */
module DualNumber {

  /** A primal value paired with its tangent. Built by plain field
      initialisation: there is no validating constructor. */
  datatype Dual<P, T> = Dual(primal: P, tangent: T)

  /** `Dual + Dual`: both components are added. */
  function Add<P, T>(a: Dual<P, T>, b: Dual<P, T>, plusP: (P, P) -> P, plusT: (T, T) -> T): Dual<P, T>
  {
    Dual(plusP(a.primal, b.primal), plusT(a.tangent, b.tangent))
  }

  /** `Dual + Primal`: a bare constant on the right moves the primal only. */
  function AddConst<P, T>(a: Dual<P, T>, c: P, plusP: (P, P) -> P): Dual<P, T>
  {
    Dual(plusP(a.primal, c), a.tangent)
  }

  /** `Dual - Dual`: both components are subtracted. */
  function Sub<P, T>(a: Dual<P, T>, b: Dual<P, T>, minusP: (P, P) -> P, minusT: (T, T) -> T): Dual<P, T>
  {
    Dual(minusP(a.primal, b.primal), minusT(a.tangent, b.tangent))
  }

  /** `Dual - Primal`: a bare constant on the right moves the primal only. */
  function SubConst<P, T>(a: Dual<P, T>, c: P, minusP: (P, P) -> P): Dual<P, T>
  {
    Dual(minusP(a.primal, c), a.tangent)
  }

  /** The `DiffOps` capability: a type that knows its own exponential. */
  datatype DiffOps<!A> = DiffOps(exp: A -> A)

  /** The capability of the scalar type. The platform exponential is not
      modelled; `exp` stands for it. */
  function ScalarOps(exp: real -> real): DiffOps<real>
  {
    DiffOps(exp)
  }

  /** `exp` of a dual number: the primal is exponentiated through the
      capability of the primal type, and the tangent is multiplied by that
      new primal (the chain rule for the exponential). */
  function Exp<P, T>(d: Dual<P, T>, ops: DiffOps<P>, times: (T, P) -> T): Dual<P, T>
  {
    var primal := ops.exp(d.primal);
    Dual(primal, times(d.tangent, primal))
  }

  /** The capability of `Dual<P, T>`, built from the capability of `P`:
      calling `exp` on a dual number dispatches here. */
  function DualOps<P, T>(inner: DiffOps<P>, times: (T, P) -> T): DiffOps<Dual<P, T>>
  {
    DiffOps(d => Exp(d, inner, times))
  }

  /** Adding a bare constant is adding the dual number `(c, zero)`: the
      constant is treated as having zero derivative. */
  lemma AddConstIsAddOfConstant<P, T>(a: Dual<P, T>, c: P, plusP: (P, P) -> P, plusT: (T, T) -> T, zero: T)
    requires forall t :: plusT(t, zero) == t
    ensures AddConst(a, c, plusP) == Add(a, Dual(c, zero), plusP, plusT)
  {
  }

  /** Subtracting a bare constant is subtracting the dual number `(c, zero)`. */
  lemma SubConstIsSubOfConstant<P, T>(a: Dual<P, T>, c: P, minusP: (P, P) -> P, minusT: (T, T) -> T, zero: T)
    requires forall t :: minusT(t, zero) == t
    ensures SubConst(a, c, minusP) == Sub(a, Dual(c, zero), minusP, minusT)
  {
  }

  /** `Dual + Dual` is commutative whenever both component additions are. */
  lemma AddCommutes<P, T>(a: Dual<P, T>, b: Dual<P, T>, plusP: (P, P) -> P, plusT: (T, T) -> T)
    requires forall x, y :: plusP(x, y) == plusP(y, x)
    requires forall x, y :: plusT(x, y) == plusT(y, x)
    ensures Add(a, b, plusP, plusT) == Add(b, a, plusP, plusT)
  {
  }

  /** `Dual + Dual` is associative whenever both component additions are. */
  lemma AddAssociates<P, T>(a: Dual<P, T>, b: Dual<P, T>, c: Dual<P, T>, plusP: (P, P) -> P, plusT: (T, T) -> T)
    requires forall x, y, z :: plusP(plusP(x, y), z) == plusP(x, plusP(y, z))
    requires forall x, y, z :: plusT(plusT(x, y), z) == plusT(x, plusT(y, z))
    ensures Add(Add(a, b, plusP, plusT), c, plusP, plusT) == Add(a, Add(b, c, plusP, plusT), plusP, plusT)
  {
  }

  /** `Dual - Dual` undoes `Dual + Dual`, and conversely, whenever the
      component operations are inverse to each other. */
  lemma AddSubInverse<P, T>(a: Dual<P, T>, b: Dual<P, T>,
                            plusP: (P, P) -> P, minusP: (P, P) -> P,
                            plusT: (T, T) -> T, minusT: (T, T) -> T)
    requires forall x, y :: minusP(plusP(x, y), y) == x
    requires forall x, y :: plusP(minusP(x, y), y) == x
    requires forall x, y :: minusT(plusT(x, y), y) == x
    requires forall x, y :: plusT(minusT(x, y), y) == x
    ensures Sub(Add(a, b, plusP, plusT), b, minusP, minusT) == a
    ensures Add(Sub(a, b, minusP, minusT), b, plusP, plusT) == a
  {
  }

  /** Shifting by a constant and shifting back restores the dual number;
      the tangent is untouched by either shift. */
  lemma ShiftRoundTrip<P, T>(a: Dual<P, T>, c: P, plusP: (P, P) -> P, minusP: (P, P) -> P)
    requires forall x, y :: minusP(plusP(x, y), y) == x
    requires forall x, y :: plusP(minusP(x, y), y) == x
    ensures SubConst(AddConst(a, c, plusP), c, minusP) == a
    ensures AddConst(SubConst(a, c, minusP), c, plusP) == a
  {
  }

  /** Illustration of a nesting the Rust bounds reject (see the module
      comment): if a dual number whose primal is a dual number had `exp`,
      it would apply the chain rule at the inner level, through the inner
      type's own capability, and again at the outer level, where the tangent
      is multiplied by the whole new inner dual number. */
  lemma NestedExp<P, T, U>(d: Dual<Dual<P, T>, U>, base: DiffOps<P>,
                           innerTimes: (T, P) -> T, outerTimes: (U, Dual<P, T>) -> U)
    ensures var r := DualOps(DualOps(base, innerTimes), outerTimes).exp(d);
            && r.primal.primal == base.exp(d.primal.primal)
            && r.primal.tangent == innerTimes(d.primal.tangent, base.exp(d.primal.primal))
            && r.tangent == outerTimes(d.tangent, r.primal)
  {
  }
}
