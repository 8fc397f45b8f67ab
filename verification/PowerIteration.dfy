/** Damped power iteration x' = a*p + (1-a)*C^T x over exact reals: the mathematics shared by the
    EigenTrust ledger (aegis_router/solvers.py) and the RepuLink ledger (aegis_router/repulink.py). */
module PowerIteration {
  import opened Network

  type Vec = NodeId -> real
  type Matrix = (NodeId, NodeId) -> real

  function Sum(ns: seq<NodeId>, f: Vec): real {
    if |ns| == 0 then 0.0 else Sum(ns[..|ns| - 1], f) + f(ns[|ns| - 1])
  }

  function Abs(x: real): real { if x < 0.0 then -x else x }

  function Spread(x: Vec, y: Vec): Vec {
    n => Abs(x(n) - y(n))
  }

  /** The L1 distance: what the ledgers call the residual. */
  function L1(ns: seq<NodeId>, x: Vec, y: Vec): real {
    Sum(ns, Spread(x, y))
  }

  ghost predicate Distribution(ns: seq<NodeId>, x: Vec) {
    (forall n :: n in ns ==> x(n) >= 0.0) && Sum(ns, x) == 1.0
  }

  /** Every row is a distribution over the nodes. */
  ghost predicate StochasticRows(ns: seq<NodeId>, c: Matrix) {
    forall s :: s in ns ==> Distribution(ns, t => c(s, t))
  }

  /** Mass arriving at t along the rows. */
  function Inflow(ns: seq<NodeId>, c: Matrix, x: Vec, t: NodeId): real {
    Sum(ns, s => x(s) * c(s, t))
  }

  /** Total mass arriving at each node. */
  function Flow(ns: seq<NodeId>, c: Matrix, x: Vec): Vec {
    t => Inflow(ns, c, x, t)
  }

  function Step(ns: seq<NodeId>, c: Matrix, a: real, p: Vec, x: Vec): Vec {
    t => a * p(t) + (1.0 - a) * Inflow(ns, c, x, t)
  }

  // ---- sums ---------------------------------------------------------------

  lemma {:induction false} SumCongruent(ns: seq<NodeId>, f: Vec, g: Vec)
    requires forall n :: n in ns ==> f(n) == g(n)
    ensures Sum(ns, f) == Sum(ns, g)
  {
    if |ns| > 0 {
      var z := ns[|ns| - 1];
      assert z in ns && f(z) == g(z);
      SumCongruent(ns[..|ns| - 1], f, g);
    }
  }

  lemma {:induction false} SumLinear(ns: seq<NodeId>, k: real, f: Vec, m: real, g: Vec, h: Vec)
    requires forall n :: n in ns ==> h(n) == k * f(n) + m * g(n)
    ensures Sum(ns, h) == k * Sum(ns, f) + m * Sum(ns, g)
  {
    if |ns| > 0 {
      var z := ns[|ns| - 1];
      SumLinear(ns[..|ns| - 1], k, f, m, g, h);
      assert z in ns && h(z) == k * f(z) + m * g(z);
    }
  }

  lemma SumScaled(ns: seq<NodeId>, k: real, f: Vec, h: Vec)
    requires forall n :: n in ns ==> h(n) == k * f(n)
    ensures Sum(ns, h) == k * Sum(ns, f)
  {
    SumLinear(ns, k, f, 0.0, f, h);
  }

  lemma {:induction false} SumMonotone(ns: seq<NodeId>, f: Vec, g: Vec)
    requires forall n :: n in ns ==> f(n) <= g(n)
    ensures Sum(ns, f) <= Sum(ns, g)
  {
    if |ns| > 0 {
      var z := ns[|ns| - 1];
      assert z in ns && f(z) <= g(z);
      SumMonotone(ns[..|ns| - 1], f, g);
    }
  }

  lemma {:induction false} SumZero(ns: seq<NodeId>, f: Vec)
    requires forall n :: n in ns ==> f(n) == 0.0
    ensures Sum(ns, f) == 0.0
  {
    if |ns| > 0 {
      var z := ns[|ns| - 1];
      assert z in ns && f(z) == 0.0;
      SumZero(ns[..|ns| - 1], f);
    }
  }

  lemma {:induction false} SumPositive(ns: seq<NodeId>, f: Vec)
    requires forall n :: n in ns ==> f(n) >= 0.0
    ensures Sum(ns, f) >= 0.0 && (Sum(ns, f) > 0.0 <==> exists n :: n in ns && f(n) > 0.0)
  {
    if |ns| > 0 {
      var init, z := ns[..|ns| - 1], ns[|ns| - 1];
      assert ns == init + [z] && z in ns && f(z) >= 0.0;
      SumPositive(init, f);
    }
  }

  lemma {:induction false} SumAbs(ns: seq<NodeId>, f: Vec)
    ensures Abs(Sum(ns, f)) <= Sum(ns, n => Abs(f(n)))
  {
    if |ns| > 0 {
      SumAbs(ns[..|ns| - 1], f);
    }
  }

  /** Summing a table by rows or by columns gives the same total. */
  lemma {:induction false} SumSwap(ns: seq<NodeId>, ms: seq<NodeId>, f: Matrix)
    ensures Sum(ms, t => Sum(ns, s => f(s, t))) == Sum(ns, s => Sum(ms, t => f(s, t)))
  {
    if |ms| == 0 {
      SumZero(ns, s => Sum(ms, t => f(s, t)));
    } else {
      var init, z := ms[..|ms| - 1], ms[|ms| - 1];
      SumSwap(ns, init, f);
      SumLinear(ns, 1.0, s => Sum(init, t => f(s, t)), 1.0, s => f(s, z), s => Sum(ms, t => f(s, t)));
    }
  }

  // ---- the operator --------------------------------------------------------

  /** Rows that sum to one neither create nor destroy mass. */
  lemma FlowTotal(ns: seq<NodeId>, c: Matrix, x: Vec)
    requires StochasticRows(ns, c)
    ensures Sum(ns, Flow(ns, c, x)) == Sum(ns, x)
  {
    hide Sum;
    var f: Matrix := (s, t) => x(s) * c(s, t);
    forall t | t in ns ensures Inflow(ns, c, x, t) == Sum(ns, s => f(s, t)) {
      SumCongruent(ns, s => x(s) * c(s, t), s => f(s, t));
    }
    SumCongruent(ns, Flow(ns, c, x), t => Sum(ns, s => f(s, t)));
    SumSwap(ns, ns, f);
    forall s | s in ns ensures Sum(ns, t => f(s, t)) == x(s) {
      SumScaled(ns, x(s), t => c(s, t), t => f(s, t));
    }
    SumCongruent(ns, s => Sum(ns, t => f(s, t)), x);
  }

  lemma InflowNonNegative(ns: seq<NodeId>, c: Matrix, x: Vec, t: NodeId)
    requires forall s :: s in ns ==> x(s) >= 0.0 && c(s, t) >= 0.0
    ensures Inflow(ns, c, x, t) >= 0.0
  {
    SumZero(ns, s => 0.0);
    forall s | s in ns ensures x(s) * c(s, t) >= 0.0 {}
    SumMonotone(ns, s => 0.0, s => x(s) * c(s, t));
  }

  lemma RowsNonNegative(ns: seq<NodeId>, c: Matrix)
    requires StochasticRows(ns, c)
    ensures forall s, t :: s in ns && t in ns ==> c(s, t) >= 0.0
  {
  }

  lemma Scaled(k: real, x: real)
    requires k >= 0.0 && x >= 0.0
    ensures k * x >= 0.0
  {
  }

  lemma ScaledLeq(k: real, x: real, y: real)
    requires k >= 0.0 && x <= y
    ensures k * x <= k * y
  {
  }

  /** A step keeps a distribution a distribution, so dividing by the total changes nothing; and no
      node falls below its share of the restart vector. */
  lemma StepKeepsMass(ns: seq<NodeId>, c: Matrix, a: real, p: Vec, x: Vec)
    requires StochasticRows(ns, c) && 0.0 <= a <= 1.0 && Distribution(ns, p) && Distribution(ns, x)
    ensures Distribution(ns, Step(ns, c, a, p, x))
    ensures forall t :: t in ns ==> Step(ns, c, a, p, x)(t) >= a * p(t)
  {
    var y := Step(ns, c, a, p, x);
    RowsNonNegative(ns, c);
    forall t | t in ns ensures y(t) >= a * p(t) >= 0.0 {
      InflowNonNegative(ns, c, x, t);
      Scaled(1.0 - a, Inflow(ns, c, x, t));
      Scaled(a, p(t));
    }
    FlowTotal(ns, c, x);
    SumLinear(ns, a, p, 1.0 - a, Flow(ns, c, x), y);
  }

  lemma InflowGap(ns: seq<NodeId>, c: Matrix, x: Vec, y: Vec, t: NodeId)
    requires forall s :: s in ns ==> c(s, t) >= 0.0
    ensures Abs(Inflow(ns, c, x, t) - Inflow(ns, c, y, t)) <= Inflow(ns, c, Spread(x, y), t)
  {
    hide Sum;
    var fx: Vec := s => x(s) * c(s, t);
    var fy: Vec := s => y(s) * c(s, t);
    var terms: Vec := s => fx(s) - fy(s);
    var bound: Vec := s => Spread(x, y)(s) * c(s, t);
    SumLinear(ns, 1.0, fx, -1.0, fy, terms);
    SumAbs(ns, terms);
    forall s | s in ns ensures Abs(terms(s)) == bound(s) {
      AffineGap(0.0, c(s, t), x(s), y(s));
    }
    SumCongruent(ns, n => Abs(terms(n)), bound);
  }

  lemma AffineGap(b: real, k: real, u: real, v: real)
    requires k >= 0.0
    ensures Abs((b + k * u) - (b + k * v)) == k * Abs(u - v)
  {
  }

  lemma AffineSpread(ns: seq<NodeId>, k: real, b: Vec, u: Vec, v: Vec, x: Vec, y: Vec)
    requires k >= 0.0 && forall t :: t in ns ==> x(t) == b(t) + k * u(t) && y(t) == b(t) + k * v(t)
    ensures L1(ns, x, y) == k * L1(ns, u, v)
  {
    hide Sum;
    forall t | t in ns ensures Spread(x, y)(t) == k * Spread(u, v)(t) {
      AffineGap(b(t), k, u(t), v(t));
    }
    SumScaled(ns, k, Spread(u, v), Spread(x, y));
  }

  /** The rows cannot spread a difference apart: |C^T x - C^T y| <= |x - y|. */
  lemma FlowContracts(ns: seq<NodeId>, c: Matrix, x: Vec, y: Vec)
    requires StochasticRows(ns, c)
    ensures L1(ns, Flow(ns, c, x), Flow(ns, c, y)) <= L1(ns, x, y)
  {
    RowsNonNegative(ns, c);
    forall t | t in ns ensures Spread(Flow(ns, c, x), Flow(ns, c, y))(t) <= Flow(ns, c, Spread(x, y))(t) {
      InflowGap(ns, c, x, y, t);
    }
    SumMonotone(ns, Spread(Flow(ns, c, x), Flow(ns, c, y)), Flow(ns, c, Spread(x, y)));
    FlowTotal(ns, c, Spread(x, y));
  }

  /** One step shrinks every L1 distance by the factor 1 - a. */
  lemma Contraction(ns: seq<NodeId>, c: Matrix, a: real, p: Vec, x: Vec, y: Vec)
    requires StochasticRows(ns, c) && 0.0 <= a <= 1.0
    ensures L1(ns, Step(ns, c, a, p, x), Step(ns, c, a, p, y)) <= (1.0 - a) * L1(ns, x, y)
  {
    hide L1, StochasticRows, Inflow;
    AffineSpread(ns, 1.0 - a, t => a * p(t), Flow(ns, c, x), Flow(ns, c, y), Step(ns, c, a, p, x),
      Step(ns, c, a, p, y));
    FlowContracts(ns, c, x, y);
    ScaledLeq(1.0 - a, L1(ns, Flow(ns, c, x), Flow(ns, c, y)), L1(ns, x, y));
  }

  // ---- whole runs ------------------------------------------------------------

  function Iterate(ns: seq<NodeId>, c: Matrix, a: real, p: Vec, x: Vec, k: nat): Vec {
    if k == 0 then x else Step(ns, c, a, p, Iterate(ns, c, a, p, x, k - 1))
  }

  function Pow(b: real, k: nat): real {
    if k == 0 then 1.0 else b * Pow(b, k - 1)
  }

  /** A step depends only on the rows and the vector over the listed nodes. */
  lemma StepCongruent(ns: seq<NodeId>, c: Matrix, c': Matrix, a: real, p: Vec, x: Vec, x': Vec, t: NodeId)
    requires forall s :: s in ns ==> c(s, t) == c'(s, t) && x(s) == x'(s)
    ensures Step(ns, c, a, p, x)(t) == Step(ns, c', a, p, x')(t)
  {
    forall s | s in ns ensures x(s) * c(s, t) == x'(s) * c'(s, t) {
      assert c(s, t) == c'(s, t) && x(s) == x'(s);
    }
    SumCongruent(ns, s => x(s) * c(s, t), s => x'(s) * c'(s, t));
    assert Inflow(ns, c, x, t) == Inflow(ns, c', x', t);
  }

  /** What a run that stops at the first small change, or after maxIterations, leaves behind. */
  ghost predicate Outcome(ns: seq<NodeId>, c: Matrix, a: real, p: Vec, tolerance: real, maxIterations: nat,
      iterations: nat, residual: real, converged: bool, x: Vec)
  {
    && 1 <= iterations <= maxIterations
    && (forall n :: n in ns ==> x(n) == Iterate(ns, c, a, p, p, iterations)(n))
    && residual == Change(ns, c, a, p, iterations)
    && (converged <==> residual <= tolerance) && (!converged ==> iterations == maxIterations)
    && forall k :: 1 <= k < iterations ==> Change(ns, c, a, p, k) > tolerance
  }

  /** The residual of the k-th iteration. */
  ghost function Change(ns: seq<NodeId>, c: Matrix, a: real, p: Vec, k: nat): real
    requires k >= 1
  {
    L1(ns, Iterate(ns, c, a, p, p, k), Iterate(ns, c, a, p, p, k - 1))
  }

  /** A run is converged by any iteration at which the geometric bound is below the tolerance. */
  lemma ConvergedBy(ns: seq<NodeId>, c: Matrix, a: real, p: Vec, tolerance: real, maxIterations: nat, iterations: nat,
      residual: real, converged: bool, x: Vec, k: nat)
    requires StochasticRows(ns, c) && 0.0 <= a <= 1.0 && Distribution(ns, p)
    requires Outcome(ns, c, a, p, tolerance, maxIterations, iterations, residual, converged, x)
    requires 1 <= k <= maxIterations && 2.0 * Pow(1.0 - a, k) <= tolerance
    ensures converged && iterations <= k
  {
    ResidualBound(ns, c, a, p, k);
    assert Change(ns, c, a, p, k) <= tolerance;
  }

  /** A distribution with at least its share of the restart vector everywhere, whose last change was
      geometrically small and bounds the distance to any fixed point. */
  ghost predicate Accurate(ns: seq<NodeId>, c: Matrix, a: real, p: Vec, iterations: nat, residual: real, x: Vec) {
    && Distribution(ns, x) && (forall n :: n in ns ==> x(n) >= a * p(n))
    && residual <= 2.0 * Pow(1.0 - a, iterations)
    && forall q: Vec :: FixedPoint(ns, c, a, p, q) ==> a * L1(ns, x, q) <= (1.0 - a) * residual
  }

  /** Every run is accurate, converged or not. */
  lemma OutcomeGuarantees(ns: seq<NodeId>, c: Matrix, a: real, p: Vec, tolerance: real, maxIterations: nat,
      iterations: nat, residual: real, converged: bool, x: Vec)
    requires StochasticRows(ns, c) && 0.0 <= a <= 1.0 && Distribution(ns, p)
    requires Outcome(ns, c, a, p, tolerance, maxIterations, iterations, residual, converged, x)
    ensures Accurate(ns, c, a, p, iterations, residual, x)
  {
    hide StochasticRows, Sum, Step, FixedPoint;
    IterateKeepsMass(ns, c, a, p, p, iterations);
    SumCongruent(ns, x, Iterate(ns, c, a, p, p, iterations));
    ResidualBound(ns, c, a, p, iterations);
    forall q: Vec | FixedPoint(ns, c, a, p, q) ensures a * L1(ns, x, q) <= (1.0 - a) * residual {
      LastStepDistance(ns, c, a, p, Iterate(ns, c, a, p, p, iterations - 1), x, q);
    }
  }

  lemma AccurateIsDistribution(ns: seq<NodeId>, c: Matrix, a: real, p: Vec, iterations: nat, residual: real, x: Vec)
    requires Accurate(ns, c, a, p, iterations, residual, x)
    ensures Distribution(ns, x)
  {
  }

  lemma LastStepDistance(ns: seq<NodeId>, c: Matrix, a: real, p: Vec, z: Vec, x: Vec, q: Vec)
    requires StochasticRows(ns, c) && 0.0 <= a <= 1.0 && FixedPoint(ns, c, a, p, q)
    requires forall n :: n in ns ==> x(n) == Step(ns, c, a, p, z)(n)
    ensures a * L1(ns, x, q) <= (1.0 - a) * L1(ns, Step(ns, c, a, p, z), z)
  {
    FixedPointDistance(ns, c, a, p, z, q);
    L1Congruent(ns, q, x, Step(ns, c, a, p, z));
  }

  lemma {:induction false} IterateKeepsMass(ns: seq<NodeId>, c: Matrix, a: real, p: Vec, x: Vec, k: nat)
    requires StochasticRows(ns, c) && 0.0 <= a <= 1.0 && Distribution(ns, p) && Distribution(ns, x)
    ensures Distribution(ns, Iterate(ns, c, a, p, x, k))
    ensures k > 0 ==> forall t :: t in ns ==> Iterate(ns, c, a, p, x, k)(t) >= a * p(t)
  {
    if k > 0 {
      IterateKeepsMass(ns, c, a, p, x, k - 1);
      StepKeepsMass(ns, c, a, p, Iterate(ns, c, a, p, x, k - 1));
    }
  }

  lemma L1Triangle(ns: seq<NodeId>, x: Vec, y: Vec, z: Vec)
    ensures L1(ns, x, z) <= L1(ns, x, y) + L1(ns, y, z)
  {
    var both: Vec := n => Spread(x, y)(n) + Spread(y, z)(n);
    forall n | n in ns ensures Spread(x, z)(n) <= both(n) {
      assert both(n) == Spread(x, y)(n) + Spread(y, z)(n);
      assert Spread(x, y)(n) == Abs(x(n) - y(n)) && Spread(y, z)(n) == Abs(y(n) - z(n));
    }
    SumMonotone(ns, Spread(x, z), both);
    SumLinear(ns, 1.0, Spread(x, y), 1.0, Spread(y, z), both);
  }

  lemma L1Symmetric(ns: seq<NodeId>, x: Vec, y: Vec)
    ensures L1(ns, x, y) == L1(ns, y, x) >= 0.0
  {
    SumCongruent(ns, Spread(x, y), Spread(y, x));
    SumZero(ns, n => 0.0);
    SumMonotone(ns, n => 0.0, Spread(x, y));
  }

  lemma L1Congruent(ns: seq<NodeId>, x: Vec, y: Vec, y': Vec)
    requires forall n :: n in ns ==> y(n) == y'(n)
    ensures L1(ns, x, y) == L1(ns, x, y') && L1(ns, y, x) == L1(ns, y', x)
  {
    SumCongruent(ns, Spread(x, y), Spread(x, y'));
    SumCongruent(ns, Spread(y, x), Spread(y', x));
  }

  lemma L1OfDistributions(ns: seq<NodeId>, x: Vec, y: Vec)
    requires Distribution(ns, x) && Distribution(ns, y)
    ensures L1(ns, x, y) <= 2.0
  {
    SumMonotone(ns, Spread(x, y), n => x(n) + y(n));
    SumLinear(ns, 1.0, x, 1.0, y, n => x(n) + y(n));
  }

  lemma FlowKeepsMass(ns: seq<NodeId>, c: Matrix, x: Vec)
    requires StochasticRows(ns, c) && Distribution(ns, x)
    ensures Distribution(ns, Flow(ns, c, x))
  {
    RowsNonNegative(ns, c);
    forall t | t in ns ensures Flow(ns, c, x)(t) >= 0.0 {
      InflowNonNegative(ns, c, x, t);
    }
    FlowTotal(ns, c, x);
  }

  /** Started from the restart vector, the k-th change is at most 2(1-a)^k. */
  lemma {:induction false} ResidualBound(ns: seq<NodeId>, c: Matrix, a: real, p: Vec, k: nat)
    requires StochasticRows(ns, c) && 0.0 <= a <= 1.0 && Distribution(ns, p) && k >= 1
    ensures L1(ns, Iterate(ns, c, a, p, p, k), Iterate(ns, c, a, p, p, k - 1)) <= 2.0 * Pow(1.0 - a, k)
  {
    hide StochasticRows, Distribution, Step, L1;
    if k == 1 {
      FirstResidual(ns, c, a, p);
      assert Pow(1.0 - a, 1) == (1.0 - a) * Pow(1.0 - a, 0);
    } else {
      ResidualBound(ns, c, a, p, k - 1);
      ResidualStep(ns, c, a, p, Iterate(ns, c, a, p, p, k - 1), Iterate(ns, c, a, p, p, k - 2),
        2.0 * Pow(1.0 - a, k - 1));
      Twice(1.0 - a, Pow(1.0 - a, k - 1));
    }
  }

  lemma Twice(x: real, y: real)
    ensures x * (2.0 * y) == 2.0 * (x * y)
  {
  }

  lemma FirstResidual(ns: seq<NodeId>, c: Matrix, a: real, p: Vec)
    requires StochasticRows(ns, c) && 0.0 <= a <= 1.0 && Distribution(ns, p)
    ensures L1(ns, Step(ns, c, a, p, p), p) <= 2.0 * (1.0 - a)
  {
    hide Sum, Inflow, StochasticRows;
    AffineSpread(ns, 1.0 - a, t => a * p(t), Flow(ns, c, p), p, Step(ns, c, a, p, p), p);
    FlowKeepsMass(ns, c, p);
    L1OfDistributions(ns, Flow(ns, c, p), p);
    ScaledLeq(1.0 - a, L1(ns, Flow(ns, c, p), p), 2.0);
  }

  lemma ResidualStep(ns: seq<NodeId>, c: Matrix, a: real, p: Vec, x: Vec, y: Vec, b: real)
    requires StochasticRows(ns, c) && 0.0 <= a <= 1.0 && L1(ns, x, y) <= b
    ensures L1(ns, Step(ns, c, a, p, x), Step(ns, c, a, p, y)) <= (1.0 - a) * b
  {
    Contraction(ns, c, a, p, x, y);
    ScaledLeq(1.0 - a, L1(ns, x, y), b);
  }

  ghost predicate FixedPoint(ns: seq<NodeId>, c: Matrix, a: real, p: Vec, q: Vec) {
    forall t :: t in ns ==> Step(ns, c, a, p, q)(t) == q(t)
  }

  /** The last change bounds the distance still to go: a*|x_k - q| <= (1-a)*|x_k - x_(k-1)|. */
  lemma FixedPointDistance(ns: seq<NodeId>, c: Matrix, a: real, p: Vec, x: Vec, q: Vec)
    requires StochasticRows(ns, c) && 0.0 <= a <= 1.0 && FixedPoint(ns, c, a, p, q)
    ensures a * L1(ns, Step(ns, c, a, p, x), q) <= (1.0 - a) * L1(ns, Step(ns, c, a, p, x), x)
  {
    var y := Step(ns, c, a, p, x);
    Contraction(ns, c, a, p, x, q);
    L1Congruent(ns, y, Step(ns, c, a, p, q), q);
    L1Triangle(ns, x, y, q);
    L1Symmetric(ns, x, y);
    ScaledLeq(1.0 - a, L1(ns, x, q), L1(ns, y, x) + L1(ns, y, q));
    Regroup(a, L1(ns, y, q), L1(ns, y, x));
  }

  lemma Regroup(a: real, u: real, v: real)
    requires u <= (1.0 - a) * (v + u)
    ensures a * u <= (1.0 - a) * v
  {
  }

  /** With a > 0 the map has at most one fixed point. */
  lemma FixedPointUnique(ns: seq<NodeId>, c: Matrix, a: real, p: Vec, q: Vec, r: Vec, n: NodeId)
    requires StochasticRows(ns, c) && 0.0 < a <= 1.0 && FixedPoint(ns, c, a, p, q) && FixedPoint(ns, c, a, p, r)
    requires n in ns
    ensures q(n) == r(n)
  {
    hide Sum, StochasticRows, Inflow;
    FixedPointDistance(ns, c, a, p, r, q);
    SumCongruent(ns, Spread(Step(ns, c, a, p, r), q), Spread(r, q));
    SumZero(ns, Spread(Step(ns, c, a, p, r), r));
    L1Symmetric(ns, r, q);
    assert (1.0 - a) * 0.0 == 0.0;
    ZeroFactor(a, L1(ns, r, q));
    TermBelowSum(ns, Spread(r, q), n);
  }

  lemma ZeroFactor(a: real, u: real)
    requires a > 0.0 && u >= 0.0 && a * u <= 0.0
    ensures u == 0.0
  {
  }

  lemma {:induction false} TermBelowSum(ns: seq<NodeId>, f: Vec, n: NodeId)
    requires n in ns && forall m :: m in ns ==> f(m) >= 0.0
    ensures f(n) <= Sum(ns, f)
  {
    var init, z := ns[..|ns| - 1], ns[|ns| - 1];
    assert z in ns && f(z) >= 0.0;
    if n in init {
      TermBelowSum(init, f, n);
    } else {
      SumZero(init, m => 0.0);
      SumMonotone(init, m => 0.0, f);
    }
  }

  // ---- how much mass a set of nodes can attract ----------------------------------

  function Within(s: set<NodeId>, x: Vec): Vec {
    n => if n in s then x(n) else 0.0
  }

  function Mass(ns: seq<NodeId>, s: set<NodeId>, x: Vec): real {
    Sum(ns, Within(s, x))
  }

  function RowMass(ns: seq<NodeId>, c: Matrix, s: set<NodeId>, n: NodeId): real {
    Mass(ns, s, t => c(n, t))
  }

  /** The mass flowing into a set is what each node's row gives it, weighted by the node. */
  lemma FlowIntoSet(ns: seq<NodeId>, c: Matrix, s: set<NodeId>, x: Vec)
    ensures Mass(ns, s, Flow(ns, c, x)) == Sum(ns, n => x(n) * RowMass(ns, c, s, n))
  {
    hide Sum;
    var f: Matrix := (n, t) => if t in s then x(n) * c(n, t) else 0.0;
    forall t | t in ns ensures Within(s, Flow(ns, c, x))(t) == Sum(ns, n => f(n, t)) {
      if t in s {
        SumCongruent(ns, n => x(n) * c(n, t), n => f(n, t));
      } else {
        SumZero(ns, n => f(n, t));
      }
    }
    SumCongruent(ns, Within(s, Flow(ns, c, x)), t => Sum(ns, n => f(n, t)));
    SumSwap(ns, ns, f);
    forall n | n in ns ensures Sum(ns, t => f(n, t)) == x(n) * RowMass(ns, c, s, n) {
      SumScaled(ns, x(n), Within(s, t => c(n, t)), t => f(n, t));
    }
    SumCongruent(ns, n => Sum(ns, t => f(n, t)), n => x(n) * RowMass(ns, c, s, n));
  }

  /** Rows outside s give it at most e, rows inside at most everything. */
  ghost predicate Leaks(ns: seq<NodeId>, c: Matrix, s: set<NodeId>, e: real) {
    forall n :: n in ns ==> RowMass(ns, c, s, n) <= if n in s then 1.0 else e
  }

  lemma FlowLeak(ns: seq<NodeId>, c: Matrix, s: set<NodeId>, x: Vec, e: real)
    requires Distribution(ns, x) && Leaks(ns, c, s, e) && e >= 0.0
    ensures Mass(ns, s, Flow(ns, c, x)) <= Mass(ns, s, x) + e
  {
    hide Sum, Flow, RowMass;
    FlowIntoSet(ns, c, s, x);
    var bound: Vec := n => Within(s, x)(n) + e * x(n);
    forall n | n in ns ensures x(n) * RowMass(ns, c, s, n) <= bound(n) {
      ScaledLeq(x(n), RowMass(ns, c, s, n), if n in s then 1.0 else e);
      Scaled(e, x(n));
    }
    SumMonotone(ns, n => x(n) * RowMass(ns, c, s, n), bound);
    SumLinear(ns, 1.0, Within(s, x), e, x, bound);
  }

  lemma MassOfStep(ns: seq<NodeId>, c: Matrix, a: real, p: Vec, s: set<NodeId>, x: Vec)
    requires forall n :: n in s ==> p(n) == 0.0
    ensures Mass(ns, s, Step(ns, c, a, p, x)) == (1.0 - a) * Mass(ns, s, Flow(ns, c, x))
  {
    SumScaled(ns, 1.0 - a, Within(s, Flow(ns, c, x)), Within(s, Step(ns, c, a, p, x)));
  }

  /** However long the iteration runs, a set without restart mass holds at most (1-a)e/a of the total. */
  lemma {:induction false} Containment(ns: seq<NodeId>, c: Matrix, a: real, p: Vec, s: set<NodeId>, e: real, k: nat)
    requires StochasticRows(ns, c) && 0.0 <= a <= 1.0 && Distribution(ns, p)
    requires Leaks(ns, c, s, e) && e >= 0.0 && forall n :: n in s ==> p(n) == 0.0
    ensures a * Mass(ns, s, Iterate(ns, c, a, p, p, k)) <= (1.0 - a) * e
  {
    if k == 0 {
      SumZero(ns, Within(s, p));
      Scaled(1.0 - a, e);
    } else {
      var x := Iterate(ns, c, a, p, p, k - 1);
      Containment(ns, c, a, p, s, e, k - 1);
      IterateKeepsMass(ns, c, a, p, p, k - 1);
      FlowLeak(ns, c, s, x, e);
      MassOfStep(ns, c, a, p, s, x);
      LeakStep(a, e, Mass(ns, s, x), Mass(ns, s, Flow(ns, c, x)));
    }
  }

  lemma LeakStep(a: real, e: real, m: real, f: real)
    requires 0.0 <= a <= 1.0 && e >= 0.0 && f <= m + e && a * m <= (1.0 - a) * e
    ensures a * ((1.0 - a) * f) <= (1.0 - a) * e
  {
    ScaledLeq(a, f, m + e);
    assert a * f <= e;
    ScaledLeq(1.0 - a, a * f, e);
  }
}
