# Forward-mode dual numbers

A Dafny model of `ad-rs`, a forward-mode automatic-differentiation crate.
Its one type, `Dual<Primal, Tangent>`, pairs a value (the primal) with its
derivative along one chosen direction (the tangent). Operations on it
propagate both parts: `Dual + Dual`, `Dual + Primal`, `Dual - Dual`,
`Dual - Primal`, and the exponential. The exponential comes from the
`DiffOps` capability. It is implemented for `f64` and, generically, for any
`Dual` whose primal type has it and is `Copy`. `Dual` itself is not `Copy`,
so a `Dual` has an exponential only when its primal is `f64` (or another
`Copy` type with the capability), never when its primal is a `Dual`.

## Layout

- `dual.dfy`, module `DualNumber`: the datatype `Dual<P, T>` and the
  operations, generic in `P` and `T`.
  - Each operation takes the component operations it needs as function
    parameters. These stand for the Rust trait bounds: `plusP` is
    `Primal: Add`, and `times: (T, P) -> T` is `Tangent: Mul<Primal>`.
  - `Add`, `AddConst`, `Sub` and `SubConst` are the four operator impls.
  - `DiffOps<A>` is the capability, a record holding an exponential.
  - `ScalarOps(exp)` is the `f64` instance.
  - `Exp` is the generic `Dual` implementation of `exp`.
  - `DualOps(inner, times)` builds the capability of `Dual<P, T>` from that
    of `P`; calling `exp` on a dual number dispatches through it, and the
    scalar case is `DualOps(ScalarOps(exp), Product)`.
  - The lemmas state what the operations inherit from their component
    operations: commutativity and associativity of `+`, `-` undoing `+`,
    and a bare constant acting as a dual number with tangent zero.
- `forward.dfy`, module `ForwardMode`: the operations at `real`, checked
  against an independent reference.
  - `Expr` records how a value was built from one seed `(x, s)`.
  - `Eval` is plain evaluation. `Derivative` is the textbook derivative:
    the sum rule, the difference rule, zero for constants, and the chain
    rule `(exp . g)' = exp(g) * g'`.
  - `Forward` builds the same value with the dual-number operations.
  - `ForwardSound` shows that the forward run always yields
    `(f(x), s * f'(x))`. The per-operation lemmas (`AddRule`, `ExpRule`, …)
    are its inductive steps.
- `scenarios.dfy`, module `Scenarios`: the crate's two unit scenarios, and
  the composition `exp(exp(x))`.

The exponential `f64::exp` is a parameter `exp: real -> real` everywhere.
Every statement holds for any function standing in for it. Where a
derivative is involved, `exp` is taken to be its own derivative.

## Model

| member | source | states |
|---|---|---|
| `DualNumber.AddCommutes` | src/lib.rs:6-18 | `Dual + Dual` is commutative whenever the primal and tangent additions are |
| `DualNumber.AddAssociates` | src/lib.rs:6-18 | `Dual + Dual` is associative whenever the primal and tangent additions are |
| `DualNumber.AddSubInverse` | src/lib.rs:6-45 | `(a + b) - b == a` and `(a - b) + b == a` for dual numbers whenever the component `-` and `+` are inverse to each other |
| `DualNumber.AddConstIsAddOfConstant` | src/lib.rs:20-31 | adding a bare constant `c` equals adding the dual number `(c, zero)`: the constant carries zero derivative, whatever `c` is |
| `DualNumber.SubConstIsSubOfConstant` | src/lib.rs:47-58 | subtracting a bare constant `c` equals subtracting the dual number `(c, zero)` |
| `DualNumber.ShiftRoundTrip` | src/lib.rs:20-58 | adding a constant and then subtracting it, or the reverse, restores the dual number exactly, tangent included |
| `ForwardMode.Forward` | src/lib.rs:6-82 | the primal of every value built by the operations is plain evaluation at the seed's primal: no tangent ever flows into a primal |
| `ForwardMode.SeedRule` | src/lib.rs:1-4 | a seed `(x, s)` built by field initialisation carries the value `x` and `s` times the derivative of the identity |
| `ForwardMode.ConstRule` | src/lib.rs:1-4 | a constant built with tangent zero carries the derivative of a constant function |
| `ForwardMode.AddRule` | src/lib.rs:12-16 | `Dual + Dual` implements the sum rule: if the operands carry `f` and `g`, the result carries `f + g` and `f' + g'` |
| `ForwardMode.AddConstRule` | src/lib.rs:25-29 | `Dual + c` carries `f + c` and the derivative of `f` unchanged, for every constant `c` |
| `ForwardMode.SubRule` | src/lib.rs:39-43 | `Dual - Dual` implements the difference rule |
| `ForwardMode.SubConstRule` | src/lib.rs:52-56 | `Dual - c` carries `f - c` and the derivative of `f` unchanged, for every constant `c` |
| `ForwardMode.ExpRule` | src/lib.rs:64-82 | `exp` of a dual number carrying `f`, dispatched through the `Dual` capability built on the scalar one, carries `exp(f)` and `exp(f) * f'` (the chain rule) |
| `ForwardMode.ForwardSound` | src/lib.rs:6-82 | for every construction history, forward evaluation from the seed `(x, s)` yields the value and `s` times the textbook derivative |
| `ForwardMode.UnitSeed` | src/lib.rs:6-82 | from the unit seed `(x, 1)` the tangent is exactly the derivative at `x` |
| `ForwardMode.ZeroSeed` | src/lib.rs:6-82 | from the zero seed `(x, 0)` every tangent is zero |
| `ForwardMode.SeedLinearity` | src/lib.rs:6-82 | seeding with direction `s` scales every tangent by `s` compared with the unit seed |
| `Scenarios.AddScenario` | src/lib.rs:88-96 | seed `(1, 1)` plus the constant `5` is `(6, 1)` |
| `Scenarios.ExpScenario` | src/lib.rs:98-105 | seed `(5, 1)` under `exp` is `(exp(5), exp(5))` |
| `Scenarios.ExpExpComposition` | src/lib.rs:70-82 | from the unit seed, `exp(exp(x))` is `(exp(exp(x)), exp(x) * exp(exp(x)))`, and this agrees with the textbook derivative of `exp . exp` |

The crate's unit tests check only the primal of each scenario. The model
also states the tangents, which follow from src/lib.rs:28 and
src/lib.rs:79.

The generic `exp` impl (src/lib.rs:70-82) asks for `Primal: DiffOps + Copy`
(src/lib.rs:72). `Dual` (src/lib.rs:1-4) derives neither `Clone` nor `Copy`,
and a downstream crate cannot add `Copy` to the foreign `Dual`. So a `Dual`
whose primal is a `Dual` has no `exp`, although the design intends nesting
to work. The model's generic `DualOps` would allow such nesting; no row
above relies on it.

## Left out

- IEEE-754 `f64` behaviour of `+`, `-`, `*` and `f64::exp`: the scalar case is modelled over `real`, and `f64::exp` is an arbitrary function parameter.
- Rust trait-bound machinery (`Copy`, `Output = …` associated types, move semantics): it is compile-time typing with no runtime behaviour. The bounds appear only as the function parameters each operation receives.
- `Primal + Dual` and `Primal - Dual`: the crate does not provide a constant-on-the-left operator, so the model has none.
- DualNumber.NestedExp: describes `exp` on a dual number whose primal is a dual number, an instantiation src/lib.rs:72 rejects because `Dual` is not `Copy`. It is an illustration of the generic rule unfolded twice and states nothing the source can run.
- Analytic correctness of the tangent: `Derivative` applies the textbook differentiation rules and takes `exp` as its own derivative. Nothing about limits or real analysis of `exp` is modelled.
- The `#[cfg(test)]` harness: its two tests appear only as the lemmas `Scenarios.AddScenario` and `Scenarios.ExpScenario`.
