/** RepuLinkLedger of aegis_router/repulink.py: interaction and endorsement layers, backward
    accountability, and the two-layer reputation iteration. */
module RepuLink {
  import opened Network
  import opened PowerIteration
  import opened Sequences
  import opened SparseVectors
  import opened Evidence

  // ---- rows -------------------------------------------------------------------

  /** Normalized row of non-negative weights; all zero (the empty row) when there is no weight. */
  function RowEntry(ns: seq<NodeId>, w: Vec, t: NodeId): real {
    if Sum(ns, w) > 0.0 then w(t) / Sum(ns, w) else 0.0
  }

  function Normal(ns: seq<NodeId>, w: NodeId -> Vec): Matrix {
    (s, t) => RowEntry(ns, w(s), t)
  }

  /** A node without a row in one layer keeps its mass there. */
  function OrSelf(ns: seq<NodeId>, w: NodeId -> Vec): Matrix {
    (s, t) => if Sum(ns, w(s)) > 0.0 then w(s)(t) / Sum(ns, w(s)) else if s == t then 1.0 else 0.0
  }

  /** The two layers mixed by the interaction weight. */
  function Mixed(ns: seq<NodeId>, alpha: real, inter: NodeId -> Vec, endorse: NodeId -> Vec): Matrix {
    (s, t) => alpha * OrSelf(ns, inter)(s, t) + (1.0 - alpha) * OrSelf(ns, endorse)(s, t)
  }

  ghost predicate NonNegative(ns: seq<NodeId>, w: NodeId -> Vec) {
    forall s, t {:trigger w(s)(t)} :: s in ns && t in ns ==> w(s)(t) >= 0.0
  }

  lemma OrSelfStochastic(ns: seq<NodeId>, w: NodeId -> Vec)
    requires Distinct(ns) && NonNegative(ns, w)
    ensures StochasticRows(ns, OrSelf(ns, w))
  {
    var c := OrSelf(ns, w);
    forall s | s in ns ensures Distribution(ns, t => c(s, t)) {
      if Sum(ns, w(s)) > 0.0 {
        Normalized(ns, w(s), Sum(ns, w(s)), t => c(s, t));
      } else {
        OwnMass(ns, s, t => c(s, t));
      }
    }
  }

  lemma OwnMass(ns: seq<NodeId>, s: NodeId, row: Vec)
    requires Distinct(ns) && s in ns && forall t :: t in ns ==> row(t) == if s == t then 1.0 else 0.0
    ensures Distribution(ns, row)
  {
    IndicatorCount(ns, {s});
    assert s in Elements(ns) && {s} * Elements(ns) == {s};
    SumCongruent(ns, Indicator({s}), row);
  }

  lemma MixedStochastic(ns: seq<NodeId>, alpha: real, inter: NodeId -> Vec, endorse: NodeId -> Vec)
    requires Distinct(ns) && 0.0 <= alpha <= 1.0 && NonNegative(ns, inter) && NonNegative(ns, endorse)
    ensures StochasticRows(ns, Mixed(ns, alpha, inter, endorse))
  {
    OrSelfStochastic(ns, inter);
    OrSelfStochastic(ns, endorse);
    MixStochastic(ns, alpha, OrSelf(ns, inter), OrSelf(ns, endorse), Mixed(ns, alpha, inter, endorse));
  }

  lemma MixStochastic(ns: seq<NodeId>, alpha: real, c: Matrix, d: Matrix, m: Matrix)
    requires 0.0 <= alpha <= 1.0 && StochasticRows(ns, c) && StochasticRows(ns, d)
    requires forall s, t :: m(s, t) == alpha * c(s, t) + (1.0 - alpha) * d(s, t)
    ensures StochasticRows(ns, m)
  {
    hide Distribution;
    forall s | s in ns ensures Distribution(ns, t => m(s, t)) {
      assert Distribution(ns, t => c(s, t)) && Distribution(ns, t => d(s, t));
      MixDistributions(ns, alpha, t => c(s, t), t => d(s, t), t => m(s, t));
    }
  }

  lemma MixDistributions(ns: seq<NodeId>, alpha: real, f: Vec, g: Vec, h: Vec)
    requires 0.0 <= alpha <= 1.0 && Distribution(ns, f) && Distribution(ns, g)
    requires forall n :: n in ns ==> h(n) == alpha * f(n) + (1.0 - alpha) * g(n)
    ensures Distribution(ns, h)
  {
    hide Sum;
    forall n | n in ns ensures h(n) >= 0.0 {
      MixBound(alpha, f(n), g(n));
    }
    SumLinear(ns, alpha, f, 1.0 - alpha, g, h);
  }

  lemma MixBound(alpha: real, x: real, y: real)
    requires 0.0 <= alpha <= 1.0 && x >= 0.0 && y >= 0.0
    ensures alpha * x + (1.0 - alpha) * y >= 0.0
  {
    Scaled(alpha, x);
    Scaled(1.0 - alpha, y);
  }

  // ---- projection onto the distributions -----------------------------------------

  function Positive(v: Vec): Vec {
    n => if v(n) > 0.0 then v(n) else 0.0
  }

  /** _project: clip below at zero and normalize, or fall back. */
  function Project(ns: seq<NodeId>, v: map<NodeId, real>, fallback: map<NodeId, real>): map<NodeId, real> {
    var total := Sum(ns, Positive(Value(v)));
    if total <= 0.0 then fallback else map n | n in Elements(ns) :: Positive(Value(v))(n) / total
  }

  lemma ProjectIsDistribution(ns: seq<NodeId>, v: map<NodeId, real>, fallback: map<NodeId, real>)
    requires fallback.Keys == Elements(ns) && Distribution(ns, Value(fallback))
    ensures Project(ns, v, fallback).Keys == Elements(ns) && Distribution(ns, Value(Project(ns, v, fallback)))
  {
    var total := Sum(ns, Positive(Value(v)));
    if total > 0.0 {
      Normalized(ns, Positive(Value(v)), total, Value(Project(ns, v, fallback)));
    }
  }

  /** Inside the loop the projection is the identity: the vector already is a distribution. */
  lemma ProjectIdentity(ns: seq<NodeId>, v: map<NodeId, real>, fallback: map<NodeId, real>)
    requires v.Keys == Elements(ns) && Distribution(ns, Value(v))
    ensures Project(ns, v, fallback) == v
  {
    forall n | n in ns ensures Positive(Value(v))(n) == Value(v)(n) {}
    SumCongruent(ns, Positive(Value(v)), Value(v));
    var r := Project(ns, v, fallback);
    forall n | n in v ensures r[n] == v[n] {
      assert n in ns && Value(v)(n) >= 0.0;
    }
  }

  // ---- backward accountability ------------------------------------------------------

  /** One backward hop: an endorser receives the discounted, weighted signal of those it endorses. */
  function Back(ns: seq<NodeId>, rows: Matrix, discount: real, f: Vec): Vec {
    n => discount * Sum(ns, t => rows(n, t) * f(t))
  }

  function Frontier(ns: seq<NodeId>, rows: Matrix, discount: real, signal: Vec, k: nat): Vec {
    if k == 0 then signal else Back(ns, rows, discount, Frontier(ns, rows, discount, signal, k - 1))
  }

  /** What has reached n after k hops. */
  function Accumulated(ns: seq<NodeId>, rows: Matrix, discount: real, signal: Vec, k: nat, n: NodeId): real {
    if k == 0 then 0.0
    else Accumulated(ns, rows, discount, signal, k - 1, n) + Frontier(ns, rows, discount, signal, k)(n)
  }

  function Magnitude(ns: seq<NodeId>, f: Vec): real {
    Sum(ns, n => Abs(f(n)))
  }

  /** k is the hop at which the loop leaves: the first one within the tolerance, or the limit. */
  ghost predicate StopsAt(ns: seq<NodeId>, rows: Matrix, discount: real, signal: Vec, tolerance: real, maxHops: nat,
      k: nat)
  {
    && 1 <= k <= maxHops
    && (k == maxHops || Magnitude(ns, Frontier(ns, rows, discount, signal, k)) <= tolerance)
    && forall i :: 1 <= i < k ==> Magnitude(ns, Frontier(ns, rows, discount, signal, i)) > tolerance
  }

  /** Rows whose entries are non-negative and sum to at most one. */
  ghost predicate Substochastic(ns: seq<NodeId>, rows: Matrix) {
    forall n :: n in ns ==> SubRow(ns, rows, n)
  }

  ghost predicate SubRow(ns: seq<NodeId>, rows: Matrix, n: NodeId) {
    (forall t :: t in ns ==> rows(n, t) >= 0.0) && Sum(ns, t => rows(n, t)) <= 1.0
  }

  lemma NormalSubstochastic(ns: seq<NodeId>, w: NodeId -> Vec)
    requires NonNegative(ns, w)
    ensures Substochastic(ns, Normal(ns, w))
  {
    var c := Normal(ns, w);
    forall s | s in ns ensures SubRow(ns, c, s) {
      if Sum(ns, w(s)) > 0.0 {
        Normalized(ns, w(s), Sum(ns, w(s)), t => c(s, t));
        forall t | t in ns ensures c(s, t) >= 0.0 {
          var row: Vec := t => c(s, t);
          assert row(t) >= 0.0;
        }
      } else {
        SumZero(ns, t => c(s, t));
      }
    }
  }

  lemma BackMonotone(ns: seq<NodeId>, rows: Matrix, discount: real, f: Vec, g: Vec, n: NodeId)
    requires SubRow(ns, rows, n) && discount >= 0.0
    requires forall t :: t in ns ==> f(t) <= g(t)
    ensures Back(ns, rows, discount, f)(n) <= Back(ns, rows, discount, g)(n)
  {
    forall t | t in ns ensures rows(n, t) * f(t) <= rows(n, t) * g(t) {
      ScaledLeq(rows(n, t), f(t), g(t));
    }
    SumMonotone(ns, t => rows(n, t) * f(t), t => rows(n, t) * g(t));
    ScaledLeq(discount, Sum(ns, t => rows(n, t) * f(t)), Sum(ns, t => rows(n, t) * g(t)));
  }

  /** A signal of at most b everywhere arrives discounted: at most discount*b. */
  lemma BackBounded(ns: seq<NodeId>, rows: Matrix, discount: real, f: Vec, b: real, n: NodeId)
    requires SubRow(ns, rows, n) && discount >= 0.0 && b >= 0.0
    requires forall t :: t in ns ==> 0.0 <= f(t) <= b
    ensures 0.0 <= Back(ns, rows, discount, f)(n) <= discount * b
  {
    hide Sum;
    var zero: Vec := t => 0.0;
    var row: Vec := t => rows(n, t);
    var terms: Vec := t => rows(n, t) * f(t);
    var caps: Vec := t => b * rows(n, t);
    forall t | t in ns ensures 0.0 <= terms(t) <= caps(t) {
      TermBound(rows(n, t), f(t), b);
    }
    SumZero(ns, zero);
    SumMonotone(ns, zero, terms);
    SumMonotone(ns, terms, caps);
    SumScaled(ns, b, row, caps);
    DiscountBound(discount, b, Sum(ns, row), Sum(ns, terms));
  }

  lemma TermBound(r: real, x: real, b: real)
    requires r >= 0.0 && 0.0 <= x <= b
    ensures 0.0 <= r * x <= b * r
  {
  }

  lemma DiscountBound(d: real, b: real, share: real, total: real)
    requires d >= 0.0 && b >= 0.0 && share <= 1.0 && 0.0 <= total <= b * share
    ensures 0.0 <= d * total <= d * b
  {
    ScaledLeq(b, share, 1.0);
    Scaled(d, total);
    ScaledLeq(d, total, b);
  }

  lemma {:induction false} FrontierMonotone(ns: seq<NodeId>, rows: Matrix, discount: real, f: Vec, g: Vec, k: nat,
      n: NodeId)
    requires Substochastic(ns, rows) && discount >= 0.0 && n in ns
    requires forall t :: t in ns ==> 0.0 <= f(t) <= g(t)
    ensures 0.0 <= Frontier(ns, rows, discount, f, k)(n) <= Frontier(ns, rows, discount, g, k)(n)
  {
    hide SubRow, Sum;
    if k > 0 {
      var zero: Vec := t => 0.0;
      var f', g' := Frontier(ns, rows, discount, f, k - 1), Frontier(ns, rows, discount, g, k - 1);
      forall t | t in ns ensures 0.0 <= f'(t) <= g'(t) {
        FrontierMonotone(ns, rows, discount, f, g, k - 1, t);
      }
      BackMonotone(ns, rows, discount, f', g', n);
      BackMonotone(ns, rows, discount, zero, f', n);
      SumZero(ns, t => rows(n, t) * zero(t));
    }
  }

  /** A signal of at most b everywhere has faded to discount^k * b after k hops. */
  lemma {:induction false} FrontierBounded(ns: seq<NodeId>, rows: Matrix, discount: real, f: Vec, b: real, k: nat,
      n: NodeId)
    requires Substochastic(ns, rows) && discount >= 0.0 && b >= 0.0 && n in ns
    requires forall t :: t in ns ==> 0.0 <= f(t) <= b
    ensures 0.0 <= Frontier(ns, rows, discount, f, k)(n) <= Pow(discount, k) * b
    ensures Pow(discount, k) >= 0.0
  {
    hide SubRow, Sum;
    if k > 0 {
      var f' := Frontier(ns, rows, discount, f, k - 1);
      forall t | t in ns ensures 0.0 <= f'(t) <= Pow(discount, k - 1) * b && Pow(discount, k - 1) >= 0.0 {
        FrontierBounded(ns, rows, discount, f, b, k - 1, t);
      }
      Scaled(Pow(discount, k - 1), b);
      BackBounded(ns, rows, discount, f', Pow(discount, k - 1) * b, n);
      Scaled(discount, Pow(discount, k - 1));
      Reassociate(discount, Pow(discount, k - 1), b);
    }
  }

  lemma Reassociate(x: real, y: real, z: real)
    ensures x * (y * z) == (x * y) * z
  {
  }

  // ---- what backward propagation guarantees -----------------------------------------

  lemma {:induction false} AccumulatedMonotone(ns: seq<NodeId>, rows: Matrix, discount: real, f: Vec, g: Vec, j: nat,
      k: nat, n: NodeId)
    requires Substochastic(ns, rows) && discount >= 0.0 && n in ns && j <= k
    requires forall t :: t in ns ==> 0.0 <= f(t) <= g(t)
    ensures 0.0 <= Accumulated(ns, rows, discount, f, j, n) <= Accumulated(ns, rows, discount, g, k, n)
  {
    hide Frontier, Substochastic;
    if k > 0 {
      FrontierMonotone(ns, rows, discount, f, g, k, n);
      AccumulatedMonotone(ns, rows, discount, f, g, if j < k then j else k - 1, k - 1, n);
      if j == k {
        assert Accumulated(ns, rows, discount, f, j, n) ==
          Accumulated(ns, rows, discount, f, k - 1, n) + Frontier(ns, rows, discount, f, k)(n);
      }
    }
  }

  lemma MagnitudeMonotone(ns: seq<NodeId>, f: Vec, g: Vec)
    requires forall t :: t in ns ==> 0.0 <= f(t) <= g(t)
    ensures Magnitude(ns, f) <= Magnitude(ns, g)
  {
    SumMonotone(ns, n => Abs(f(n)), n => Abs(g(n)));
  }

  /** Monotone, early exit included: a larger signal never yields less, because it never stops earlier. */
  lemma BackwardMonotone(ns: seq<NodeId>, rows: Matrix, discount: real, f: Vec, g: Vec, tolerance: real, maxHops: nat,
      j: nat, k: nat, n: NodeId)
    requires Substochastic(ns, rows) && discount >= 0.0 && n in ns
    requires forall t :: t in ns ==> 0.0 <= f(t) <= g(t)
    requires StopsAt(ns, rows, discount, f, tolerance, maxHops, j)
    requires StopsAt(ns, rows, discount, g, tolerance, maxHops, k)
    ensures j <= k && 0.0 <= Accumulated(ns, rows, discount, f, j, n) <= Accumulated(ns, rows, discount, g, k, n)
  {
    var fk, gk := Frontier(ns, rows, discount, f, k), Frontier(ns, rows, discount, g, k);
    forall t | t in ns ensures 0.0 <= fk(t) <= gk(t) {
      FrontierMonotone(ns, rows, discount, f, g, k, t);
    }
    MagnitudeMonotone(ns, fk, gk);
    AccumulatedMonotone(ns, rows, discount, f, g, if j <= k then j else k, k, n);
  }

  /** The total is at most discount/(1-discount) times the largest signal. */
  lemma {:induction false} BackwardBounded(ns: seq<NodeId>, rows: Matrix, discount: real, f: Vec, b: real, k: nat,
      n: NodeId)
    requires Substochastic(ns, rows) && 0.0 <= discount < 1.0 && b >= 0.0 && n in ns
    requires forall t :: t in ns ==> 0.0 <= f(t) <= b
    ensures Accumulated(ns, rows, discount, f, k, n) <= discount / (1.0 - discount) * b
  {
    GeometricBound(ns, rows, discount, f, b, k, n);
    FrontierBounded(ns, rows, discount, f, b, k + 1, n);
    FactorOut(discount, b, Accumulated(ns, rows, discount, f, k, n), Pow(discount, k + 1) * b);
  }

  lemma {:induction false} GeometricBound(ns: seq<NodeId>, rows: Matrix, discount: real, f: Vec, b: real, k: nat,
      n: NodeId)
    requires Substochastic(ns, rows) && 0.0 <= discount < 1.0 && b >= 0.0 && n in ns
    requires forall t :: t in ns ==> 0.0 <= f(t) <= b
    ensures (1.0 - discount) * Accumulated(ns, rows, discount, f, k, n) + Pow(discount, k + 1) * b <= discount * b
  {
    hide Frontier, Substochastic;
    if k == 0 {
      assert Pow(discount, 1) == discount * Pow(discount, 0);
    } else {
      GeometricBound(ns, rows, discount, f, b, k - 1, n);
      FrontierBounded(ns, rows, discount, f, b, k, n);
      GeometricStep(discount, b, Accumulated(ns, rows, discount, f, k - 1, n), Frontier(ns, rows, discount, f, k)(n),
        Pow(discount, k));
    }
  }

  lemma GeometricStep(d: real, b: real, acc: real, x: real, pow: real)
    requires 0.0 <= d < 1.0 && x <= pow * b && (1.0 - d) * acc + pow * b <= d * b
    ensures (1.0 - d) * (acc + x) + (d * pow) * b <= d * b
  {
    ScaledLeq(1.0 - d, x, pow * b);
    assert (d * pow) * b == d * (pow * b);
  }

  lemma FactorOut(d: real, b: real, acc: real, rest: real)
    requires 0.0 <= d < 1.0 && rest >= 0.0 && (1.0 - d) * acc + rest <= d * b
    ensures acc <= d / (1.0 - d) * b
  {
    var k := 1.0 / (1.0 - d);
    ScaledLeq(k, (1.0 - d) * acc, d * b);
    assert k * ((1.0 - d) * acc) == (k * (1.0 - d)) * acc == acc;
    assert d / (1.0 - d) == k * d;
    assert k * (d * b) == (k * d) * b;
  }

  // ---- who is reached -----------------------------------------------------------------

  /** An endorsement chain of exactly k hops from n to a node with evidence. */
  ghost predicate Chain(ns: seq<NodeId>, rows: Matrix, f: Vec, k: nat, n: NodeId) {
    n in ns && if k == 0 then f(n) > 0.0 else exists t :: rows(n, t) > 0.0 && Chain(ns, rows, f, k - 1, t)
  }

  /** After k hops a node has received something exactly when such a chain exists and signals are passed on at all. */
  lemma {:induction false} FrontierReach(ns: seq<NodeId>, rows: Matrix, discount: real, f: Vec, k: nat, n: NodeId)
    requires Substochastic(ns, rows) && discount >= 0.0 && n in ns
    requires forall t :: t in ns ==> f(t) >= 0.0
    ensures Frontier(ns, rows, discount, f, k)(n) >= 0.0
    ensures Frontier(ns, rows, discount, f, k)(n) > 0.0 <==> (k == 0 || discount > 0.0) && Chain(ns, rows, f, k, n)
  {
    hide SubRow, Sum;
    EntriesNonNegative(ns, rows, n);
    if k > 0 {
      var f' := Frontier(ns, rows, discount, f, k - 1);
      forall t | t in ns ensures f'(t) >= 0.0 && (discount > 0.0 ==> (f'(t) > 0.0 <==> Chain(ns, rows, f, k - 1, t))) {
        FrontierReach(ns, rows, discount, f, k - 1, t);
      }
      var terms: Vec := t => rows(n, t) * f'(t);
      forall t | t in ns ensures terms(t) >= 0.0 && (terms(t) > 0.0 <==> rows(n, t) > 0.0 && f'(t) > 0.0) {
        Products(rows(n, t), f'(t));
      }
      SumPositive(ns, terms);
      SumCongruent(ns, terms, t => rows(n, t) * f'(t));
      Products(discount, Sum(ns, terms));
    }
  }

  lemma EntriesNonNegative(ns: seq<NodeId>, rows: Matrix, n: NodeId)
    requires Substochastic(ns, rows) && n in ns
    ensures forall t :: t in ns ==> rows(n, t) >= 0.0
  {
  }

  lemma Products(x: real, y: real)
    requires x >= 0.0 && y >= 0.0
    ensures x * y >= 0.0 && (x * y > 0.0 <==> x > 0.0 && y > 0.0)
  {
  }

  /** Only endorsers within reach are touched: with no chain of 1 to k hops to evidence, or a discount of
      zero, the total is exactly zero, and else it is positive. */
  lemma {:induction false} BackwardReach(ns: seq<NodeId>, rows: Matrix, discount: real, f: Vec, k: nat, n: NodeId)
    requires Substochastic(ns, rows) && discount >= 0.0 && n in ns
    requires forall t :: t in ns ==> f(t) >= 0.0
    ensures Accumulated(ns, rows, discount, f, k, n) >= 0.0
    ensures Accumulated(ns, rows, discount, f, k, n) > 0.0 <==>
      (discount > 0.0 && exists i :: 1 <= i <= k && Chain(ns, rows, f, i, n))
  {
    if k > 0 {
      BackwardReach(ns, rows, discount, f, k - 1, n);
      FrontierReach(ns, rows, discount, f, k, n);
    }
  }

  // ---- the loops -----------------------------------------------------------------------

  /** Sparse rows of positive normalized weights; a node without weight has the empty row. */
  ghost predicate AreSparse(ns: seq<NodeId>, rows: map<NodeId, map<NodeId, real>>, w: NodeId -> Vec) {
    && rows.Keys == Elements(ns)
    && forall s :: s in rows ==> IsSparseRow(ns, rows[s], w(s))
  }

  ghost predicate IsSparseRow(ns: seq<NodeId>, row: map<NodeId, real>, w: Vec) {
    && (forall t :: t in row <==> t in ns && w(t) > 0.0)
    && (row == map[] <==> Sum(ns, w) <= 0.0)
    && forall t :: t in ns ==> Value(row)(t) == RowEntry(ns, w, t)
  }

  method SparseRow(ns: seq<NodeId>, w: Vec) returns (row: map<NodeId, real>)
    requires forall t :: t in ns ==> w(t) >= 0.0
    ensures IsSparseRow(ns, row, w)
  {
    hide Sum;
    var positive := map t | t in Elements(ns) && w(t) > 0.0 :: w(t);
    forall t | t in ns ensures Value(positive)(t) == w(t) {
      assert t in Elements(ns);
    }
    SumCongruent(ns, Value(positive), w);
    SumPositive(ns, w);
    var total := Sum(ns, Value(positive));
    row := map[];
    if total > 0.0 {
      row := map t | t in positive :: positive[t] / total;
      var t :| t in ns && w(t) > 0.0;
      assert t in Elements(ns) && t in row;
    }
  }

  /** endorsement_rows and interaction_rows: one normalized row per node. */
  method SparseRows(ns: seq<NodeId>, w: NodeId -> Vec) returns (rows: map<NodeId, map<NodeId, real>>)
    requires NonNegative(ns, w)
    ensures AreSparse(ns, rows, w)
  {
    rows := map[];
    for i := 0 to |ns|
      invariant rows.Keys == Elements(ns[..i])
      invariant forall s :: s in rows ==> IsSparseRow(ns, rows[s], w(s))
    {
      var source := ns[i];
      assert source in ns;
      forall t | t in ns ensures w(source)(t) >= 0.0 {}
      var row := SparseRow(ns, w(source));
      rows := rows[source := row];
      assert ns[..i + 1] == ns[..i] + [ns[i]];
    }
    assert ns[..|ns|] == ns;
  }

  /** The row a source sends along in one layer. */
  function RowOrSelf(row: map<NodeId, real>, source: NodeId): map<NodeId, real> {
    if row == map[] then map[source := 1.0] else row
  }

  lemma RowOrSelfEntries(ns: seq<NodeId>, row: map<NodeId, real>, w: NodeId -> Vec, s: NodeId, t: NodeId)
    requires IsSparseRow(ns, row, w(s)) && t in ns
    ensures Value(RowOrSelf(row, s))(t) == OrSelf(ns, w)(s, t)
  {
  }

  ghost predicate TwoLayerPartial(ns: seq<NodeId>, i: nat, m: Matrix, current: map<NodeId, real>,
      updated: map<NodeId, real>)
    requires i <= |ns|
  {
    updated.Keys == Elements(ns) && forall t :: t in ns ==>
      Value(updated)(t) == Sum(ns[..i], Sent(1.0, m, Value(current), t))
  }

  lemma TwoLayerSource(ns: seq<NodeId>, i: nat, alpha: real, inter: NodeId -> Vec, endorse: NodeId -> Vec,
      rowI: map<NodeId, real>, rowE: map<NodeId, real>, current: map<NodeId, real>, before: map<NodeId, real>,
      middle: map<NodeId, real>, after: map<NodeId, real>, massI: real, massE: real)
    requires i < |ns| && ns[i] in current && massI == alpha * current[ns[i]] && massE == (1.0 - alpha) * current[ns[i]]
    requires IsSparseRow(ns, rowI, inter(ns[i])) && IsSparseRow(ns, rowE, endorse(ns[i]))
    requires TwoLayerPartial(ns, i, Mixed(ns, alpha, inter, endorse), current, before)
    requires RowAdded(RowOrSelf(rowI, ns[i]), massI, before, middle)
    requires RowAdded(RowOrSelf(rowE, ns[i]), massE, middle, after)
    ensures TwoLayerPartial(ns, i + 1, Mixed(ns, alpha, inter, endorse), current, after)
  {
    hide OrSelf, Mixed, RowOrSelf, IsSparseRow, RowEntry, RowAdded, Value, Sum;
    SameKeys(RowOrSelf(rowI, ns[i]), massI, before, middle);
    SameKeys(RowOrSelf(rowE, ns[i]), massE, middle, after);
    forall t | t in ns
      ensures Value(after)(t) == Sum(ns[..i + 1], Sent(1.0, Mixed(ns, alpha, inter, endorse), Value(current), t))
    {
      assert t in Elements(ns);
      RowEntryAdded(RowOrSelf(rowI, ns[i]), massI, before, middle, t);
      RowEntryAdded(RowOrSelf(rowE, ns[i]), massE, middle, after, t);
      TwoLayerEntry(ns, i, alpha, inter, endorse, rowI, rowE, current, t, massI, massE);
    }
  }

  lemma TwoLayerEntry(ns: seq<NodeId>, i: nat, alpha: real, inter: NodeId -> Vec, endorse: NodeId -> Vec,
      rowI: map<NodeId, real>, rowE: map<NodeId, real>, current: map<NodeId, real>, t: NodeId, massI: real, massE: real)
    requires i < |ns| && ns[i] in current && t in ns && massI == alpha * current[ns[i]]
    requires massE == (1.0 - alpha) * current[ns[i]]
    requires IsSparseRow(ns, rowI, inter(ns[i])) && IsSparseRow(ns, rowE, endorse(ns[i]))
    ensures Sum(ns[..i + 1], Sent(1.0, Mixed(ns, alpha, inter, endorse), Value(current), t)) ==
      Sum(ns[..i], Sent(1.0, Mixed(ns, alpha, inter, endorse), Value(current), t))
      + massI * Value(RowOrSelf(rowI, ns[i]))(t) + massE * Value(RowOrSelf(rowE, ns[i]))(t)
  {
    hide OrSelf, Mixed, RowOrSelf, IsSparseRow, RowEntry, Sum, Sent;
    SumNext(ns, i, Sent(1.0, Mixed(ns, alpha, inter, endorse), Value(current), t));
    RowOrSelfEntries(ns, rowI, inter, ns[i], t);
    RowOrSelfEntries(ns, rowE, endorse, ns[i], t);
    SentMixed(ns, alpha, inter, endorse, Value(current), ns[i], t);
  }

  lemma SentMixed(ns: seq<NodeId>, alpha: real, inter: NodeId -> Vec, endorse: NodeId -> Vec, x: Vec, s: NodeId,
      t: NodeId)
    ensures Sent(1.0, Mixed(ns, alpha, inter, endorse), x, t)(s) ==
      alpha * x(s) * OrSelf(ns, inter)(s, t) + (1.0 - alpha) * x(s) * OrSelf(ns, endorse)(s, t)
  {
  }

  /** One source's turn: its mass goes out along one row per layer. */
  method SendSource(ns: seq<NodeId>, i: nat, alpha: real, ghost inter: NodeId -> Vec, ghost endorse: NodeId -> Vec,
      rowI: map<NodeId, real>, rowE: map<NodeId, real>, current: map<NodeId, real>, before: map<NodeId, real>)
    returns (after: map<NodeId, real>)
    requires i < |ns| && current.Keys == Elements(ns)
    requires IsSparseRow(ns, rowI, inter(ns[i])) && IsSparseRow(ns, rowE, endorse(ns[i]))
    requires before.Keys == Elements(ns) && TwoLayerPartial(ns, i, Mixed(ns, alpha, inter, endorse), current, before)
    ensures after.Keys == Elements(ns) && TwoLayerPartial(ns, i + 1, Mixed(ns, alpha, inter, endorse), current, after)
  {
    hide Mixed, IsSparseRow, Sent, TwoLayerPartial, RowOrSelf, Value, RowAdded;
    var source := ns[i];
    assert source in Elements(ns);
    KeysKnown(ns, rowI, inter(source), source);
    KeysKnown(ns, rowE, endorse(source), source);
    var massI, massE := alpha * current[source], (1.0 - alpha) * current[source];
    var middle := AddRow(RowOrSelf(rowI, source), massI, before);
    SameKeys(RowOrSelf(rowI, source), massI, before, middle);
    after := AddRow(RowOrSelf(rowE, source), massE, middle);
    SameKeys(RowOrSelf(rowE, source), massE, middle, after);
    TwoLayerSource(ns, i, alpha, inter, endorse, rowI, rowE, current, before, middle, after, massI, massE);
  }

  /** The double loop of recompute over all sources. */
  method TwoLayerPass(ns: seq<NodeId>, alpha: real, ghost inter: NodeId -> Vec, ghost endorse: NodeId -> Vec,
      interactions: map<NodeId, map<NodeId, real>>, endorsements: map<NodeId, map<NodeId, real>>,
      current: map<NodeId, real>) returns (updated: map<NodeId, real>)
    requires AreSparse(ns, interactions, inter) && AreSparse(ns, endorsements, endorse) && current.Keys == Elements(ns)
    ensures updated.Keys == Elements(ns)
    ensures forall t :: t in ns ==> Value(updated)(t) == Inflow(ns, Mixed(ns, alpha, inter, endorse), Value(current), t)
  {
    hide Mixed, IsSparseRow, Sent, Inflow, TwoLayerPartial, Value;
    updated := map n | n in Elements(ns) :: 0.0;
    TwoLayerEnds(ns, Mixed(ns, alpha, inter, endorse), current, updated);
    for i := 0 to |ns|
      invariant updated.Keys == Elements(ns)
      invariant TwoLayerPartial(ns, i, Mixed(ns, alpha, inter, endorse), current, updated)
    {
      var source := ns[i];
      assert source in Elements(ns);
      updated := SendSource(ns, i, alpha, inter, endorse, interactions[source], endorsements[source], current, updated);
    }
    TwoLayerEnds(ns, Mixed(ns, alpha, inter, endorse), current, updated);
  }

  lemma KeysKnown(ns: seq<NodeId>, row: map<NodeId, real>, w: Vec, source: NodeId)
    requires IsSparseRow(ns, row, w) && source in Elements(ns)
    ensures RowOrSelf(row, source).Keys <= Elements(ns)
  {
    RowKeys(ns, row, w);
  }

  /** The pass starts from zero and ends with every node's inflow. */
  lemma TwoLayerEnds(ns: seq<NodeId>, m: Matrix, current: map<NodeId, real>, updated: map<NodeId, real>)
    requires updated.Keys == Elements(ns)
    ensures (forall n :: n in updated ==> updated[n] == 0.0) ==> TwoLayerPartial(ns, 0, m, current, updated)
    ensures TwoLayerPartial(ns, |ns|, m, current, updated) ==>
      forall t :: t in ns ==> Value(updated)(t) == Inflow(ns, m, Value(current), t)
  {
    assert ns[..|ns|] == ns;
    forall t | t in ns ensures Sum(ns, Sent(1.0, m, Value(current), t)) == Inflow(ns, m, Value(current), t) {
      SentIsInflow(ns, m, Value(current), t);
    }
  }

  lemma SentIsInflow(ns: seq<NodeId>, m: Matrix, x: Vec, t: NodeId)
    ensures Sum(ns, Sent(1.0, m, x, t)) == Inflow(ns, m, x, t)
  {
  }

  lemma RestartEntry(ns: seq<NodeId>, m: Matrix, restart: real, p: Vec, x: Vec, x': Vec, passed: real, updated: real,
      t: NodeId)
    requires forall s :: s in ns ==> x(s) == x'(s)
    requires passed == Inflow(ns, m, x, t) && updated == (1.0 - restart) * passed + restart * p(t)
    ensures updated == Step(ns, m, restart, p, x')(t)
  {
    StepCongruent(ns, m, m, restart, p, x, x', t);
    assert Step(ns, m, restart, p, x)(t) == restart * p(t) + (1.0 - restart) * passed;
  }

  /** After the restart term is mixed in, the vector is one step on. */
  lemma RestartIsStep(ns: seq<NodeId>, m: Matrix, restart: real, seed: map<NodeId, real>, x: Vec,
      current: map<NodeId, real>, passed: map<NodeId, real>)
    requires seed.Keys == passed.Keys == Elements(ns) && Holds(ns, current, x)
    requires forall t :: t in ns ==> Value(passed)(t) == Inflow(ns, m, Value(current), t)
    ensures Holds(ns, Restarted(passed, restart, seed), Step(ns, m, restart, Value(seed), x))
  {
    hide Inflow, Step;
    var updated := Restarted(passed, restart, seed);
    forall t | t in ns ensures Value(updated)(t) == Step(ns, m, restart, Value(seed), x)(t) {
      assert t in Elements(ns);
      RestartEntry(ns, m, restart, Value(seed), Value(current), x, Value(passed)(t), Value(updated)(t), t);
    }
  }

  lemma IterateHeld(ns: seq<NodeId>, m: Matrix, a: real, p: Vec, v: map<NodeId, real>, k: nat)
    requires StochasticRows(ns, m) && 0.0 <= a <= 1.0 && Distribution(ns, p) && Holds(ns, v, Iterate(ns, m, a, p, p, k))
    ensures Distribution(ns, Value(v))
  {
    IterateKeepsMass(ns, m, a, p, p, k);
    hide Iterate;
    SumCongruent(ns, Value(v), Iterate(ns, m, a, p, p, k));
  }

  function Restarted(passed: map<NodeId, real>, restart: real, seed: map<NodeId, real>): map<NodeId, real>
    requires passed.Keys == seed.Keys
  {
    map n | n in passed :: (1.0 - restart) * passed[n] + restart * seed[n]
  }

  lemma StepIsIterate(ns: seq<NodeId>, m: Matrix, a: real, p: Vec, k: nat)
    ensures Step(ns, m, a, p, Iterate(ns, m, a, p, p, k)) == Iterate(ns, m, a, p, p, k + 1)
  {
  }

  method OneIteration(ns: seq<NodeId>, alpha: real, restart: real, ghost inter: NodeId -> Vec,
      ghost endorse: NodeId -> Vec, interactions: map<NodeId, map<NodeId, real>>,
      endorsements: map<NodeId, map<NodeId, real>>, seed: map<NodeId, real>, current: map<NodeId, real>, ghost k: nat)
    returns (updated: map<NodeId, real>, residual: real)
    requires 0.0 <= restart <= 1.0 && StochasticRows(ns, Mixed(ns, alpha, inter, endorse))
    requires AreSparse(ns, interactions, inter) && AreSparse(ns, endorsements, endorse)
    requires seed.Keys == Elements(ns) && Distribution(ns, Value(seed))
    requires Holds(ns, current, Iterate(ns, Mixed(ns, alpha, inter, endorse), restart, Value(seed), Value(seed), k))
    ensures Holds(ns, updated, Iterate(ns, Mixed(ns, alpha, inter, endorse), restart, Value(seed), Value(seed), k + 1))
    ensures residual == Change(ns, Mixed(ns, alpha, inter, endorse), restart, Value(seed), k + 1)
  {
    hide Iterate, StochasticRows, Mixed, Distribution, IsSparseRow, Inflow, L1, Project, Restarted, Step;
    ghost var m, p := Mixed(ns, alpha, inter, endorse), Value(seed);
    var passed := TwoLayerPass(ns, alpha, inter, endorse, interactions, endorsements, current);
    var mixed := Restarted(passed, restart, seed);
    RestartIsStep(ns, m, restart, seed, Iterate(ns, m, restart, p, p, k), current, passed);
    StepIsIterate(ns, m, restart, p, k);
    IterateHeld(ns, m, restart, p, mixed, k + 1);
    ProjectIdentity(ns, mixed, seed);
    updated := Project(ns, mixed, seed);
    residual := L1(ns, Value(updated), Value(current));
    L1Holds(ns, updated, current, Iterate(ns, m, restart, p, p, k + 1), Iterate(ns, m, restart, p, p, k));
  }

  /** The reputation iteration, started from and restarting at the seed. */
  method Converge(ns: seq<NodeId>, alpha: real, restart: real, ghost inter: NodeId -> Vec, ghost endorse: NodeId -> Vec,
      interactions: map<NodeId, map<NodeId, real>>, endorsements: map<NodeId, map<NodeId, real>>,
      seed: map<NodeId, real>, tolerance: real, maxIterations: nat)
    returns (current: map<NodeId, real>, iterations: nat, residual: real, converged: bool)
    requires 0.0 <= restart <= 1.0 && StochasticRows(ns, Mixed(ns, alpha, inter, endorse)) && maxIterations >= 1
    requires AreSparse(ns, interactions, inter) && AreSparse(ns, endorsements, endorse)
    requires seed.Keys == Elements(ns) && Distribution(ns, Value(seed))
    ensures current.Keys == Elements(ns)
    ensures Outcome(ns, Mixed(ns, alpha, inter, endorse), restart, Value(seed), tolerance, maxIterations,
                    iterations, residual, converged, Value(current))
  {
    hide Iterate, Change, StochasticRows, Mixed, Distribution, IsSparseRow;
    ghost var m, p := Mixed(ns, alpha, inter, endorse), Value(seed);
    StartHolds(ns, m, restart, seed);
    current, residual, converged := seed, 0.0, false;
    iterations := 0;
    while iterations < maxIterations
      invariant 0 <= iterations <= maxIterations
      invariant Holds(ns, current, Iterate(ns, m, restart, p, p, iterations))
      invariant forall k :: 1 <= k <= iterations ==> Change(ns, m, restart, p, k) > tolerance
      invariant iterations > 0 ==> residual == Change(ns, m, restart, p, iterations)
    {
      current, residual := OneIteration(ns, alpha, restart, inter, endorse, interactions, endorsements, seed, current,
        iterations);
      iterations := iterations + 1;
      if residual <= tolerance {
        converged := true;
        return;
      }
    }
  }

  /** _backward: hop by hop, until the frontier fades below the tolerance or the hop limit. */
  method Backward(ns: seq<NodeId>, discount: real, tolerance: real, maxHops: nat, ghost w: NodeId -> Vec,
      rows: map<NodeId, map<NodeId, real>>, signal: map<NodeId, real>)
    returns (propagated: map<NodeId, real>, ghost hops: nat)
    requires AreSparse(ns, rows, w) && signal.Keys == Elements(ns) && maxHops >= 1
    ensures propagated.Keys == Elements(ns)
    ensures StopsAt(ns, Normal(ns, w), discount, Value(signal), tolerance, maxHops, hops)
    ensures forall n :: n in ns ==>
      Value(propagated)(n) == Accumulated(ns, Normal(ns, w), discount, Value(signal), hops, n)
  {
    hide Magnitude, Normal, AreSparse, Frontier, Accumulated, Sum, Value;
    ghost var c, f := Normal(ns, w), Value(signal);
    propagated := map n | n in signal :: 0.0;
    var frontier := signal;
    NothingSent(ns, c, discount, signal, propagated);
    hops := 0;
    var hop := 0;
    while hop < maxHops
      invariant hops == hop <= maxHops
      invariant Holds(ns, frontier, Frontier(ns, c, discount, f, hop))
      invariant propagated.Keys == Elements(ns)
      invariant forall n :: n in ns ==> Value(propagated)(n) == Accumulated(ns, c, discount, f, hop, n)
      invariant forall i :: 1 <= i <= hop ==> Magnitude(ns, Frontier(ns, c, discount, f, i)) > tolerance
    {
      frontier := BackHop(ns, discount, w, rows, frontier, f, hop);
      var magnitude := Magnitude(ns, Value(frontier));
      MagnitudeHolds(ns, frontier, Frontier(ns, c, discount, f, hop + 1));
      SentOn(ns, c, discount, f, hop, propagated, frontier);
      propagated := Added(propagated, frontier);
      hop, hops := hop + 1, hops + 1;
      if magnitude <= tolerance {
        return;
      }
    }
  }

  function Added(v: map<NodeId, real>, w: map<NodeId, real>): map<NodeId, real>
    requires v.Keys == w.Keys
  {
    map n | n in v :: v[n] + w[n]
  }

  lemma NothingSent(ns: seq<NodeId>, rows: Matrix, discount: real, signal: map<NodeId, real>,
      propagated: map<NodeId, real>)
    requires signal.Keys == propagated.Keys == Elements(ns) && forall n :: n in propagated ==> propagated[n] == 0.0
    ensures Holds(ns, signal, Frontier(ns, rows, discount, Value(signal), 0))
    ensures forall n :: n in ns ==> Value(propagated)(n) == Accumulated(ns, rows, discount, Value(signal), 0, n)
  {
    AccumulatedStart(ns, rows, discount, Value(signal));
  }

  /** What one more hop brings is added up. */
  lemma SentOn(ns: seq<NodeId>, rows: Matrix, discount: real, f: Vec, k: nat, propagated: map<NodeId, real>,
      frontier: map<NodeId, real>)
    requires propagated.Keys == Elements(ns) && Holds(ns, frontier, Frontier(ns, rows, discount, f, k + 1))
    requires forall n :: n in ns ==> Value(propagated)(n) == Accumulated(ns, rows, discount, f, k, n)
    ensures forall n :: n in ns ==>
      Value(Added(propagated, frontier))(n) == Accumulated(ns, rows, discount, f, k + 1, n)
  {
    hide Frontier, Accumulated;
    AccumulatedNext(ns, rows, discount, f, k);
    forall n | n in ns
      ensures Value(Added(propagated, frontier))(n) == Accumulated(ns, rows, discount, f, k + 1, n)
    {
      assert n in Elements(ns);
      assert Value(frontier)(n) == Frontier(ns, rows, discount, f, k + 1)(n);
    }
  }

  lemma AccumulatedStart(ns: seq<NodeId>, rows: Matrix, discount: real, signal: Vec)
    ensures Frontier(ns, rows, discount, signal, 0) == signal
    ensures forall n :: Accumulated(ns, rows, discount, signal, 0, n) == 0.0
  {
  }

  lemma AccumulatedNext(ns: seq<NodeId>, rows: Matrix, discount: real, signal: Vec, k: nat)
    ensures forall n ::
      (Accumulated(ns, rows, discount, signal, k + 1, n) ==
       Accumulated(ns, rows, discount, signal, k, n) + Frontier(ns, rows, discount, signal, k + 1)(n))
  {
  }

  lemma MagnitudeHolds(ns: seq<NodeId>, v: map<NodeId, real>, f: Vec)
    requires Holds(ns, v, f)
    ensures Magnitude(ns, Value(v)) == Magnitude(ns, f)
  {
    SumCongruent(ns, n => Abs(Value(v)(n)), n => Abs(f(n)));
  }

  method BackHop(ns: seq<NodeId>, discount: real, ghost w: NodeId -> Vec, rows: map<NodeId, map<NodeId, real>>,
      frontier: map<NodeId, real>, ghost signal: Vec, ghost k: nat) returns (next: map<NodeId, real>)
    requires AreSparse(ns, rows, w) && Holds(ns, frontier, Frontier(ns, Normal(ns, w), discount, signal, k))
    ensures Holds(ns, next, Frontier(ns, Normal(ns, w), discount, signal, k + 1))
  {
    hide Sum, Normal, IsSparseRow, Frontier;
    next := map n | n in rows :: BackEntry(ns, discount, rows[n], frontier);
    forall n | n in ns ensures Value(next)(n) == Frontier(ns, Normal(ns, w), discount, signal, k + 1)(n) {
      assert n in Elements(ns);
      BackEntryIs(ns, discount, w, rows[n], frontier, signal, k, n);
    }
  }

  /** Discounted sum along one endorser's row. */
  function BackEntry(ns: seq<NodeId>, discount: real, row: map<NodeId, real>, frontier: map<NodeId, real>): real {
    discount * Sum(ns, t => Value(row)(t) * Value(frontier)(t))
  }

  lemma BackEntryIs(ns: seq<NodeId>, discount: real, w: NodeId -> Vec, row: map<NodeId, real>,
      frontier: map<NodeId, real>, signal: Vec, k: nat, n: NodeId)
    requires IsSparseRow(ns, row, w(n)) && Holds(ns, frontier, Frontier(ns, Normal(ns, w), discount, signal, k))
    ensures BackEntry(ns, discount, row, frontier) == Frontier(ns, Normal(ns, w), discount, signal, k + 1)(n)
  {
    hide Sum, Frontier, RowEntry;
    var c, f := Normal(ns, w), Frontier(ns, Normal(ns, w), discount, signal, k);
    forall t | t in ns ensures Value(row)(t) == c(n, t) {
      assert c(n, t) == RowEntry(ns, w(n), t);
    }
    NextFrontier(ns, c, discount, signal, k, n);
    hide Normal, IsSparseRow, Back;
    BackCongruent(ns, discount, Value(row), c, Value(frontier), f, n);
  }

  lemma NextFrontier(ns: seq<NodeId>, c: Matrix, discount: real, signal: Vec, k: nat, n: NodeId)
    ensures var x := Frontier(ns, c, discount, signal, k);
      Frontier(ns, c, discount, signal, k + 1)(n) == Back(ns, c, discount, x)(n)
  {
  }

  lemma BackCongruent(ns: seq<NodeId>, discount: real, row: Vec, c: Matrix, x: Vec, f: Vec, n: NodeId)
    requires forall t :: t in ns ==> row(t) == c(n, t) && x(t) == f(t)
    ensures discount * Sum(ns, t => row(t) * x(t)) == Back(ns, c, discount, f)(n)
  {
    SumCongruent(ns, t => row(t) * x(t), t => c(n, t) * f(t));
  }

  // ---- the ledger ------------------------------------------------------------------------

  datatype EndorsementError = UnknownNode | SelfEndorsement | BadConfidence | Duplicate

  /** Endorser, endorsee and confidence. */
  type Endorsement = (NodeId, NodeId, real)

  function EdgeOf(e: Endorsement): Edge {
    (e.0, e.1)
  }

  /** The ledger takes the endorsement next to those it has. */
  predicate Endorsable(ns: seq<NodeId>, m: map<Edge, real>, e: Endorsement) {
    e.0 in ns && e.1 in ns && e.0 != e.1 && 0.0 < e.2 <= 1.0 && EdgeOf(e) !in m
  }

  /** It takes all of a list: no edge comes twice. */
  ghost predicate AllEndorsable(ns: seq<NodeId>, m: map<Edge, real>, es: seq<Endorsement>) {
    && (forall i :: 0 <= i < |es| ==> Endorsable(ns, m, es[i]))
    && forall i, j :: 0 <= i < j < |es| ==> EdgeOf(es[i]) != EdgeOf(es[j])
  }

  /** The endorsements of m and of the list, and no others. */
  ghost predicate Endorsing(m: map<Edge, real>, es: seq<Endorsement>, m': map<Edge, real>) {
    && (forall i :: 0 <= i < |es| ==> EdgeOf(es[i]) in m' && m'[EdgeOf(es[i])] == es[i].2)
    && (forall e :: e in m ==> e in m' && m'[e] == m[e])
    && forall e :: e in m' && e !in m ==> exists i :: 0 <= i < |es| && e == EdgeOf(es[i])
  }

  function Weights(m: map<Edge, real>): NodeId -> Vec {
    s => (t => Count(m, (s, t)))
  }

  function NetEvidence(delivered: map<Edge, real>, drops: map<Edge, real>): NodeId -> Vec {
    s => Scores(delivered, drops, s)
  }

  /** Sparse rows of net evidence favour whom the evidence favours. */
  lemma InteractionRow(ns: seq<NodeId>, delivered: map<Edge, real>, drops: map<Edge, real>, s: NodeId,
      row: map<NodeId, real>)
    requires IsSparseRow(ns, row, NetEvidence(delivered, drops)(s))
    ensures TrustRow(ns, delivered, drops, map[], s, row)
  {
    hide Sum, Score, Earns, EvidenceRow, Count;
    SomeEarned(ns, delivered, drops, s);
    if Sum(ns, Scores(delivered, drops, s)) > 0.0 {
      SharesAreEvidence(ns, delivered, drops, s, Value(row));
      forall t | t in ns ensures t in row <==> Earns(delivered, drops, s, t) { ScoreEarned(delivered, drops, s, t); }
    }
  }

  lemma EndorsementRow(ns: seq<NodeId>, m: map<Edge, real>, s: NodeId, row: map<NodeId, real>)
    requires IsSparseRow(ns, row, Weights(m)(s)) && KnownEvidence(ns, m)
    ensures WeightRow(ns, m, s, row)
  {
    hide Sum, InRatio, Distribution, Count, KnownEvidence;
    var w := Weights(m)(s);
    CountsNonNegative(ns, m);
    if row != map[] {
      Normalized(ns, w, Sum(ns, w), Value(row));
      forall t, u | t in row && u in row ensures InRatio(row[t], Count(m, (s, t)), row[u], Count(m, (s, u))) {
        SharesInRatio(w(t), w(u), Sum(ns, w));
      }
    }
  }

  /** Evidence about n, over all observers. */
  function Received(ns: seq<NodeId>, evidence: map<Edge, real>, n: NodeId): real {
    Sum(ns, s => Count(evidence, (s, n)))
  }

  lemma ReceivedNonNegative(ns: seq<NodeId>, evidence: map<Edge, real>, n: NodeId)
    requires KnownEvidence(ns, evidence)
    ensures Received(ns, evidence, n) >= 0.0
  {
    SumZero(ns, s => 0.0);
    SumMonotone(ns, s => 0.0, s => Count(evidence, (s, n)));
  }

  /** What 1 - exp(-sensitivity * x) is used for: zero at zero, increasing, and below one. */
  ghost predicate Saturating(f: real -> real) {
    && f(0.0) == 0.0
    && (forall x :: x >= 0.0 ==> 0.0 <= f(x) < 1.0)
    && forall x, y :: 0.0 <= x < y ==> f(x) < f(y)
  }

  /** Uniform mass sent once along the endorsement rows. */
  method Endorsed(ns: seq<NodeId>, rows: map<NodeId, map<NodeId, real>>, uniform: map<NodeId, real>,
      ghost w: NodeId -> Vec) returns (initial: map<NodeId, real>)
    requires AreSparse(ns, rows, w) && uniform.Keys == Elements(ns)
    ensures initial.Keys == Elements(ns)
    ensures forall t :: t in ns ==> Value(initial)(t) == Inflow(ns, Normal(ns, w), Value(uniform), t)
  {
    hide Normal, Sent, Inflow, IsSparseRow, TwoLayerPartial, Value;
    initial := map n | n in uniform :: 0.0;
    TwoLayerEnds(ns, Normal(ns, w), uniform, initial);
    for i := 0 to |ns|
      invariant initial.Keys == Elements(ns) && TwoLayerPartial(ns, i, Normal(ns, w), uniform, initial)
    {
      var endorser := ns[i];
      assert endorser in Elements(ns) && IsSparseRow(ns, rows[endorser], w(endorser));
      RowKeys(ns, rows[endorser], w(endorser));
      ghost var before := initial;
      initial := AddRow(rows[endorser], uniform[endorser], initial);
      EndorsedBy(ns, i, rows[endorser], w, uniform, before, initial);
    }
    TwoLayerEnds(ns, Normal(ns, w), uniform, initial);
  }

  lemma EndorsedBy(ns: seq<NodeId>, i: nat, row: map<NodeId, real>, w: NodeId -> Vec, uniform: map<NodeId, real>,
      before: map<NodeId, real>, after: map<NodeId, real>)
    requires i < |ns| && ns[i] in uniform && IsSparseRow(ns, row, w(ns[i]))
    requires TwoLayerPartial(ns, i, Normal(ns, w), uniform, before) && after.Keys == before.Keys
    requires forall t :: t in before ==> after[t] == before[t] + uniform[ns[i]] * Value(row)(t)
    ensures TwoLayerPartial(ns, i + 1, Normal(ns, w), uniform, after)
  {
    hide Normal, Sent, IsSparseRow;
    forall t | t in ns ensures Value(after)(t) == Sum(ns[..i + 1], Sent(1.0, Normal(ns, w), Value(uniform), t)) {
      assert t in Elements(ns);
      SumNext(ns, i, Sent(1.0, Normal(ns, w), Value(uniform), t));
      SentNormal(ns, row, w, uniform, ns[i], t);
    }
  }

  lemma RowKeys(ns: seq<NodeId>, row: map<NodeId, real>, w: Vec)
    requires IsSparseRow(ns, row, w)
    ensures row.Keys <= Elements(ns)
  {
    forall t | t in row ensures t in Elements(ns) {}
  }

  lemma SentNormal(ns: seq<NodeId>, row: map<NodeId, real>, w: NodeId -> Vec, uniform: map<NodeId, real>, s: NodeId,
      t: NodeId)
    requires IsSparseRow(ns, row, w(s)) && s in uniform && t in ns
    ensures Sent(1.0, Normal(ns, w), Value(uniform), t)(s) == uniform[s] * Value(row)(t)
  {
  }

  lemma RowsOverEvidence(ns: seq<NodeId>, delivered: map<Edge, real>, drops: map<Edge, real>, m: map<Edge, real>,
      interactionRows: map<NodeId, map<NodeId, real>>, endorsementRows: map<NodeId, map<NodeId, real>>)
    requires KnownEvidence(ns, m) && AreSparse(ns, interactionRows, NetEvidence(delivered, drops))
    requires AreSparse(ns, endorsementRows, Weights(m))
    ensures forall s :: s in ns ==> s in endorsementRows && WeightRow(ns, m, s, endorsementRows[s])
    ensures forall s :: s in ns ==> s in interactionRows && TrustRow(ns, delivered, drops, map[], s, interactionRows[s])
  {
    hide IsSparseRow, WeightRow, TrustRow, KnownEvidence, Weights, NetEvidence;
    forall s | s in ns
      ensures s in endorsementRows && s in interactionRows
      ensures WeightRow(ns, m, s, endorsementRows[s]) && TrustRow(ns, delivered, drops, map[], s, interactionRows[s])
    {
      assert s in Elements(ns);
      InteractionRow(ns, delivered, drops, s, interactionRows[s]);
      EndorsementRow(ns, m, s, endorsementRows[s]);
    }
  }

  /** Every node's entry lies between zero and b. */
  ghost predicate Bounded(ns: seq<NodeId>, v: map<NodeId, real>, b: real) {
    forall n :: n in ns ==> 0.0 <= Value(v)(n) <= b
  }

  /** sums is what backward propagation of the signal leaves at each node. */
  ghost predicate Accounts(ns: seq<NodeId>, rows: Matrix, discount: real, signal: Vec, tolerance: real, maxHops: nat,
      sums: map<NodeId, real>)
  {
    && sums.Keys == Elements(ns)
    && exists k: nat ::
      (StopsAt(ns, rows, discount, signal, tolerance, maxHops, k) &&
       forall n :: n in ns ==> Value(sums)(n) == Accumulated(ns, rows, discount, signal, k, n))
  }

  lemma WeightsNonNegative(ns: seq<NodeId>, m: map<Edge, real>)
    requires KnownEvidence(ns, m)
    ensures NonNegative(ns, Weights(m))
  {
  }

  lemma NetNonNegative(ns: seq<NodeId>, delivered: map<Edge, real>, drops: map<Edge, real>)
    ensures NonNegative(ns, NetEvidence(delivered, drops))
  {
  }

  /** Signals below one add up to at most discount/(1-discount). */
  lemma AccountRange(ns: seq<NodeId>, rows: Matrix, discount: real, f: Vec, k: nat)
    requires Substochastic(ns, rows) && 0.0 <= discount < 1.0
    requires forall t :: t in ns ==> 0.0 <= f(t) <= 1.0
    ensures forall n :: n in ns ==> 0.0 <= Accumulated(ns, rows, discount, f, k, n) <= discount / (1.0 - discount)
  {
    hide Accumulated, Substochastic;
    forall n | n in ns ensures 0.0 <= Accumulated(ns, rows, discount, f, k, n) <= discount / (1.0 - discount) {
      BackwardBounded(ns, rows, discount, f, 1.0, k, n);
      AccumulatedMonotone(ns, rows, discount, f, f, k, k, n);
    }
  }

  /** A supplied endorsement is refused only if the list cannot be taken as a whole. */
  lemma SuppliedBad(ns: seq<NodeId>, m: map<Edge, real>, es: seq<Endorsement>, i: nat, before: map<Edge, real>)
    requires i < |es| && Endorsing(m, es[..i], before) && !Endorsable(ns, before, es[i])
    ensures !AllEndorsable(ns, m, es)
  {
    hide EdgeOf;
    if Endorsable(ns, m, es[i]) {
      var j :| 0 <= j < |es[..i]| && EdgeOf(es[i]) == EdgeOf(es[..i][j]);
      assert es[..i][j] == es[j];
    }
  }

  lemma SuppliedGood(ns: seq<NodeId>, m: map<Edge, real>, es: seq<Endorsement>, i: nat, before: map<Edge, real>)
    requires i < |es| && AllEndorsable(ns, m, es[..i]) && Endorsing(m, es[..i], before) && Endorsable(ns, before, es[i])
    ensures AllEndorsable(ns, m, es[..i + 1]) && Endorsing(m, es[..i + 1], before[EdgeOf(es[i]) := es[i].2])
  {
    hide EdgeOf;
    var es', after := es[..i + 1], before[EdgeOf(es[i]) := es[i].2];
    assert es' == es[..i] + [es[i]];
    forall e | e in after && e !in m ensures exists j :: 0 <= j < |es'| && e == EdgeOf(es'[j]) {
      if e == EdgeOf(es[i]) {
        assert es'[i] == es[i];
      } else {
        var j :| 0 <= j < |es[..i]| && e == EdgeOf(es[..i][j]);
        assert es'[j] == es[..i][j];
      }
    }
  }

  lemma SuppliedNone(ns: seq<NodeId>, m: map<Edge, real>, es: seq<Endorsement>)
    ensures AllEndorsable(ns, m, es[..0]) && Endorsing(m, es[..0], m)
  {
  }

  lemma EqualShares(ns: seq<NodeId>, uniform: map<NodeId, real>)
    requires Distinct(ns) && |ns| > 0 && uniform.Keys == Elements(ns)
    requires forall n :: n in uniform ==> uniform[n] == 1.0 / |ns| as real
    ensures Distribution(ns, Value(uniform))
  {
    hide Sum;
    UniformIsDistribution(ns, ns);
    forall n | n in ns ensures Value(uniform)(n) == SparseVectors.Uniform(ns)(n) {
      assert n in Elements(ns);
    }
    SumCongruent(ns, SparseVectors.Uniform(ns), Value(uniform));
  }

  lemma ConvergedAccurately(ns: seq<NodeId>, m: Matrix, a: real, p: Vec, tolerance: real, maxIterations: nat,
      iterations: nat, residual: real, converged: bool, v: map<NodeId, real>)
    requires StochasticRows(ns, m) && 0.0 <= a <= 1.0 && Distribution(ns, p)
    requires Outcome(ns, m, a, p, tolerance, maxIterations, iterations, residual, converged, Value(v))
    ensures Accurate(ns, m, a, p, iterations, residual, Value(v)) && Distribution(ns, Value(v))
  {
    hide Outcome, Accurate, StochasticRows, Distribution, Value;
    OutcomeGuarantees(ns, m, a, p, tolerance, maxIterations, iterations, residual, converged, Value(v));
    AccurateIsDistribution(ns, m, a, p, iterations, residual, Value(v));
  }

  class RepuLinkLedger {
    const nodes: seq<NodeId>
    const interactionWeight: real
    const backwardDiscount: real
    const restartWeight: real
    const maxBackwardHops: nat
    const tolerance: real
    const maxIterations: nat
    const saturate: real -> real
    var endorsements: map<Edge, real>
    var delivered: map<Edge, real>
    var drops: map<Edge, real>
    var reputation: map<NodeId, real>
    var penalty: map<NodeId, real>
    var reward: map<NodeId, real>
    var iterations: nat
    var residual: Option<real>
    var converged: bool

    ghost predicate Valid()
      reads this
    {
      && |nodes| > 0 && Distinct(nodes) && Saturating(saturate)
      && 0.0 <= interactionWeight <= 1.0 && 0.0 <= backwardDiscount < 1.0 && 0.0 < restartWeight < 1.0
      && maxBackwardHops >= 1 && tolerance > 0.0 && maxIterations >= 1
      && KnownEvidence(nodes, endorsements) && KnownEvidence(nodes, delivered) && KnownEvidence(nodes, drops)
      && reputation.Keys == penalty.Keys == reward.Keys == Elements(nodes)
      && Distribution(nodes, Value(reputation))
    }

    /** The two-layer operator the current ledgers stand for. */
    ghost function Operator(): Matrix
      reads this`delivered, this`drops, this`endorsements
    {
      Mixed(nodes, interactionWeight, NetEvidence(delivered, drops), Weights(endorsements))
    }

    ghost function Layer(): Matrix
      reads this`endorsements
    {
      Normal(nodes, Weights(endorsements))
    }

    /** A ledger that has seen nothing: no evidence, no accounts, and the cold start as reputation. */
    constructor (nodeIds: seq<NodeId>, interactionWeight: real, backwardDiscount: real, restartWeight: real,
        maxBackwardHops: nat, tolerance: real, maxIterations: nat, saturate: real -> real)
      requires |nodeIds| > 0 && 0.0 <= interactionWeight <= 1.0 && 0.0 <= backwardDiscount < 1.0
      requires 0.0 < restartWeight < 1.0
      requires maxBackwardHops >= 1 && tolerance > 0.0 && maxIterations >= 1 && Saturating(saturate)
      ensures Valid() && nodes == Unique(nodeIds) && IsColdStart(reputation)
      ensures this.interactionWeight == interactionWeight && this.backwardDiscount == backwardDiscount
      ensures this.restartWeight == restartWeight && this.maxBackwardHops == maxBackwardHops
      ensures this.tolerance == tolerance
      ensures this.maxIterations == maxIterations && this.saturate == saturate
      ensures endorsements == delivered == drops == map[] && forall n :: n in nodes ==> penalty[n] == reward[n] == 0.0
      ensures iterations == 0 && residual == None && !converged
    {
      hide IsColdStart, Distribution, Value, Saturating, Unique, Distinct, Elements;
      var ns := Unique(nodeIds);
      assert nodeIds[0] in ns;
      var uniform := map n | n in Elements(ns) :: 1.0 / |ns| as real;
      EqualShares(ns, uniform);
      var none := map n | n in Elements(ns) :: 0.0;
      this.nodes, this.interactionWeight, this.backwardDiscount := ns, interactionWeight, backwardDiscount;
      this.restartWeight, this.maxBackwardHops, this.tolerance := restartWeight, maxBackwardHops, tolerance;
      this.maxIterations, this.saturate := maxIterations, saturate;
      endorsements, delivered, drops, reputation, penalty, reward := map[], map[], map[], uniform, none, none;
      iterations, residual, converged := 0, None, false;
      new;
      hide Valid;
      SetColdStart();
    }

    /** What is known before any recompute: the cold start. */
    method SetColdStart()
      requires Valid()
      modifies this`reputation
      ensures Valid() && IsColdStart(reputation)
    {
      hide IsColdStart, Distribution, Saturating, KnownEvidence;
      reputation := ColdStart();
    }

    /** Adds the supplied endorsements one by one, up to the first that is refused; then the cold start. */
    method Supply(supplied: seq<Endorsement>) returns (error: Option<EndorsementError>)
      requires Valid()
      modifies this`endorsements, this`reputation
      ensures Valid() && (error == None <==> AllEndorsable(nodes, old(endorsements), supplied))
      ensures error == None ==> Endorsing(old(endorsements), supplied, endorsements) && IsColdStart(reputation)
    {
      hide IsColdStart, Valid, AllEndorsable, Endorsing, Endorsable;
      SuppliedNone(nodes, endorsements, supplied);
      for i := 0 to |supplied|
        invariant Valid() && AllEndorsable(nodes, old(endorsements), supplied[..i])
        invariant Endorsing(old(endorsements), supplied[..i], endorsements)
      {
        ghost var before := endorsements;
        error := AddEndorsement(supplied[i].0, supplied[i].1, supplied[i].2);
        if error != None {
          SuppliedBad(nodes, old(endorsements), supplied, i, before);
          return;
        }
        SuppliedGood(nodes, old(endorsements), supplied, i, before);
      }
      assert supplied[..|supplied|] == supplied;
      SetColdStart();
      error := None;
    }

    /** Add one explicit endorsement; every refusal leaves the ledger as it was. */
    method AddEndorsement(endorser: NodeId, endorsee: NodeId, confidence: real)
      returns (error: Option<EndorsementError>)
      requires Valid()
      modifies this`endorsements
      ensures Valid()
      ensures error == None <==> Endorsable(nodes, old(endorsements), (endorser, endorsee, confidence))
      ensures endorsements == if error == None then old(endorsements)[(endorser, endorsee) := confidence]
        else old(endorsements)
    {
      if endorser !in nodes || endorsee !in nodes {
        return Some(UnknownNode);
      }
      if endorser == endorsee {
        return Some(SelfEndorsement);
      }
      if !(0.0 < confidence <= 1.0) {
        return Some(BadConfidence);
      }
      var edge := (endorser, endorsee);
      if edge in endorsements {
        return Some(Duplicate);
      }
      endorsements := endorsements[edge := confidence];
      return None;
    }

    /** Count one outcome, unless an end is unknown (the source raises) or the peer was merely offline. */
    method Observe(fromNode: NodeId, neighbor: NodeId, isDelivered: bool, isDropped: bool, nodeDown: bool)
      returns (known: bool)
      requires Valid()
      modifies this`delivered, this`drops
      ensures Valid() && (known <==> fromNode in nodes && neighbor in nodes)
      ensures delivered == if known && !nodeDown && isDelivered then Incremented(old(delivered), (fromNode, neighbor))
        else old(delivered)
      ensures drops == if known && !nodeDown && isDropped then Incremented(old(drops), (fromNode, neighbor))
        else old(drops)
      ensures CountedOn(old(delivered), (fromNode, neighbor), known && !nodeDown && isDelivered, delivered)
      ensures CountedOn(old(drops), (fromNode, neighbor), known && !nodeDown && isDropped, drops)
    {
      hide Distribution, Value, Saturating, Distinct, Elements, CountedOn, Incremented, KnownEvidence;
      OneCounted(nodes, delivered, (fromNode, neighbor));
      OneCounted(nodes, drops, (fromNode, neighbor));
      if fromNode !in nodes || neighbor !in nodes {
        return false;
      }
      if nodeDown {
        return true;
      }
      var edge := (fromNode, neighbor);
      if isDelivered {
        delivered := Incremented(delivered, edge);
      }
      if isDropped {
        drops := Incremented(drops, edge);
      }
      return true;
    }

    function UniformShare(): map<NodeId, real>
      requires |nodes| > 0
    {
      map n | n in Elements(nodes) :: 1.0 / |nodes| as real
    }

    /** Reputation from endorsements alone, uniform when there are none: uniform mass sent once along the
        endorsement rows, projected. */
    ghost predicate IsColdStart(r: map<NodeId, real>)
      reads this`endorsements
    {
      && |nodes| > 0 && r.Keys == Elements(nodes) && Distribution(nodes, Value(r))
      && exists initial ::
        (r == Project(nodes, initial, UniformShare()) &&
         forall t :: t in nodes ==> Value(initial)(t) == Inflow(nodes, Layer(), Value(UniformShare()), t))
    }

    lemma ProjectedCold(initial: map<NodeId, real>)
      requires |nodes| > 0 && Distinct(nodes)
      requires forall t :: t in nodes ==> Value(initial)(t) == Inflow(nodes, Layer(), Value(UniformShare()), t)
      ensures IsColdStart(Project(nodes, initial, UniformShare()))
    {
      hide Project, Normal, Inflow, Distribution;
      EqualShares(nodes, UniformShare());
      ProjectIsDistribution(nodes, initial, UniformShare());
    }

    lemma ColdFacts(r: map<NodeId, real>)
      requires IsColdStart(r)
      ensures r.Keys == Elements(nodes) && Distribution(nodes, Value(r))
    {
    }

    method ColdStart() returns (r: map<NodeId, real>)
      requires Valid()
      ensures r.Keys == Elements(nodes) && Distribution(nodes, Value(r)) && IsColdStart(r)
    {
      hide Project, AreSparse, Normal, Inflow, Distribution, Saturating, NonNegative, IsColdStart, Value;
      WeightsNonNegative(nodes, endorsements);
      hide KnownEvidence;
      var rows := SparseRows(nodes, Weights(endorsements));
      var initial := Endorsed(nodes, rows, UniformShare(), Weights(endorsements));
      r := Project(nodes, initial, UniformShare());
      ProjectedCold(initial);
      ColdFacts(r);
    }

    /** _signal: saturated evidence about each node. */
    function Signal(evidence: map<Edge, real>): map<NodeId, real> {
      map n | n in Elements(nodes) :: saturate(Received(nodes, evidence, n))
    }

    lemma SignalRange(evidence: map<Edge, real>)
      requires Valid() && KnownEvidence(nodes, evidence)
      ensures Signal(evidence).Keys == Elements(nodes)
      ensures forall n :: n in nodes ==> 0.0 <= Value(Signal(evidence))(n) <= 1.0
    {
      forall n | n in nodes ensures 0.0 <= Value(Signal(evidence))(n) <= 1.0 {
        assert n in Elements(nodes);
        ReceivedNonNegative(nodes, evidence, n);
      }
    }

    /** One direction of accountability: the backward sum of a signal, bounded by discount/(1-discount). */
    method Account(evidence: map<Edge, real>, rows: map<NodeId, map<NodeId, real>>) returns (sums: map<NodeId, real>)
      requires Valid() && KnownEvidence(nodes, evidence) && AreSparse(nodes, rows, Weights(endorsements))
      ensures sums.Keys == Elements(nodes)
      ensures Accounts(nodes, Layer(), backwardDiscount, Value(Signal(evidence)), tolerance, maxBackwardHops, sums)
      ensures Bounded(nodes, sums, backwardDiscount / (1.0 - backwardDiscount))
    {
      hide AreSparse, StopsAt, Normal, Accumulated, Value, Substochastic, Saturating, KnownEvidence, NonNegative;
      var signal := Signal(evidence);
      SignalRange(evidence);
      ghost var hops;
      sums, hops := Backward(nodes, backwardDiscount, tolerance, maxBackwardHops, Weights(endorsements), rows, signal);
      WeightsNonNegative(nodes, endorsements);
      NormalSubstochastic(nodes, Weights(endorsements));
      AccountRange(nodes, Layer(), backwardDiscount, Value(signal), hops);
    }

    /** Accountability, then the seed: cold start corrected by evidence and accountability, projected. */
    method Seed(endorsementRows: map<NodeId, map<NodeId, real>>)
      returns (seed: map<NodeId, real>, ghost cold: map<NodeId, real>)
      requires Valid() && AreSparse(nodes, endorsementRows, Weights(endorsements))
      modifies this`penalty, this`reward
      ensures Valid() && seed.Keys == Elements(nodes) && Distribution(nodes, Value(seed))
      ensures cold.Keys == Elements(nodes) && IsColdStart(cold) && seed == Project(nodes, Raw(cold), cold)
      ensures Accounts(nodes, Layer(), backwardDiscount, Value(Signal(drops)), tolerance, maxBackwardHops, penalty)
      ensures Accounts(nodes, Layer(), backwardDiscount, Value(Signal(delivered)), tolerance, maxBackwardHops, reward)
      ensures Bounded(nodes, penalty, backwardDiscount / (1.0 - backwardDiscount))
      ensures Bounded(nodes, reward, backwardDiscount / (1.0 - backwardDiscount))
    {
      hide AreSparse, StopsAt, Normal, Accumulated, Project, Distribution, Value, Saturating, KnownEvidence, Bounded,
           Accounts, IsColdStart;
      penalty := Account(drops, endorsementRows);
      reward := Account(delivered, endorsementRows);
      var coldStart := ColdStart();
      cold := coldStart;
      seed := Project(nodes, Raw(coldStart), coldStart);
      ProjectIsDistribution(nodes, Raw(coldStart), coldStart);
    }

    /** Reputation before projection: first-hand evidence and accountability added to the cold start. */
    function Raw(coldStart: map<NodeId, real>): map<NodeId, real>
      reads this`penalty, this`reward, this`drops, this`delivered
      requires coldStart.Keys == penalty.Keys == reward.Keys == Elements(nodes)
    {
      map n | n in Elements(nodes) ::
        coldStart[n] - Signal(drops)[n] + Signal(delivered)[n] - penalty[n] + reward[n]
    }

    /** Sparse rows of both layers. */
    method Rows()
      returns (endorsementRows: map<NodeId, map<NodeId, real>>, interactionRows: map<NodeId, map<NodeId, real>>)
      requires Valid()
      ensures AreSparse(nodes, endorsementRows, Weights(endorsements))
      ensures AreSparse(nodes, interactionRows, NetEvidence(delivered, drops))
      ensures forall s :: s in nodes ==> s in endorsementRows && WeightRow(nodes, endorsements, s, endorsementRows[s])
      ensures forall s :: s in nodes ==>
        s in interactionRows && TrustRow(nodes, delivered, drops, map[], s, interactionRows[s])
      ensures StochasticRows(nodes, Operator())
    {
      hide AreSparse, Distribution, StochasticRows, Mixed, NonNegative, KnownEvidence, Weights, NetEvidence, Saturating,
           WeightRow, TrustRow;
      WeightsNonNegative(nodes, endorsements);
      NetNonNegative(nodes, delivered, drops);
      endorsementRows := SparseRows(nodes, Weights(endorsements));
      interactionRows := SparseRows(nodes, NetEvidence(delivered, drops));
      RowsOverEvidence(nodes, delivered, drops, endorsements, interactionRows, endorsementRows);
      MixedStochastic(nodes, interactionWeight, NetEvidence(delivered, drops), Weights(endorsements));
    }

    /** The iteration from a given seed, whose result becomes the reputation. */
    method Settle(seed: map<NodeId, real>, endorsementRows: map<NodeId, map<NodeId, real>>,
        interactionRows: map<NodeId, map<NodeId, real>>)
      requires Valid() && StochasticRows(nodes, Operator()) && seed.Keys == Elements(nodes)
      requires Distribution(nodes, Value(seed))
      requires AreSparse(nodes, endorsementRows, Weights(endorsements))
      requires AreSparse(nodes, interactionRows, NetEvidence(delivered, drops))
      modifies this`reputation, this`iterations, this`residual, this`converged
      ensures Valid() && residual.Some?
      ensures Outcome(nodes, Operator(), restartWeight, Value(seed), tolerance, maxIterations,
                      iterations, residual.value, converged, Value(reputation))
      ensures Accurate(nodes, Operator(), restartWeight, Value(seed), iterations, residual.value, Value(reputation))
    {
      hide AreSparse, Outcome, Accurate, Distribution, Mixed, StochasticRows, Value, Saturating, KnownEvidence, Weights,
           NetEvidence, Elements, Distinct;
      ghost var m, p := Operator(), Value(seed);
      var current, change;
      current, iterations, change, converged := Converge(nodes, interactionWeight, restartWeight,
        NetEvidence(delivered, drops), Weights(endorsements), interactionRows, endorsementRows, seed, tolerance,
        maxIterations);
      ConvergedAccurately(nodes, m, restartWeight, p, tolerance, maxIterations, iterations, change, converged, current);
      residual, reputation := Some(change), current;
    }

    /** recompute: accountability once, then the two-layer iteration from the resulting seed. */
    method Recompute() returns (ghost seed: map<NodeId, real>, ghost cold: map<NodeId, real>)
      requires Valid()
      modifies this`penalty, this`reward, this`reputation, this`iterations, this`residual, this`converged
      ensures Valid() && residual.Some?
      ensures seed.Keys == Elements(nodes) && IsColdStart(cold) && seed == Project(nodes, Raw(cold), cold)
      ensures Accounts(nodes, Layer(), backwardDiscount, Value(Signal(drops)), tolerance, maxBackwardHops, penalty)
      ensures Accounts(nodes, Layer(), backwardDiscount, Value(Signal(delivered)), tolerance, maxBackwardHops, reward)
      ensures Outcome(nodes, Operator(), restartWeight, Value(seed), tolerance, maxIterations,
                      iterations, residual.value, converged, Value(reputation))
      ensures Accurate(nodes, Operator(), restartWeight, Value(seed), iterations, residual.value, Value(reputation))
      ensures Bounded(nodes, penalty, backwardDiscount / (1.0 - backwardDiscount))
      ensures Bounded(nodes, reward, backwardDiscount / (1.0 - backwardDiscount))
    {
      hide Valid, AreSparse, Outcome, Accurate, Distribution, Mixed, StochasticRows, Value, Saturating, Bounded,
           Accounts, Project, Weights, NetEvidence, Elements, IsColdStart, Signal, Layer, Operator;
      var endorsementRows, interactionRows := Rows();
      var start;
      start, cold := Seed(endorsementRows);
      seed := start;
      Settle(start, endorsementRows, interactionRows);
    }
  }

  /** RepuLinkLedger(nodes, endorsements, ...): fails exactly when one of the supplied endorsements is refused. */
  method NewLedger(nodeIds: seq<NodeId>, supplied: seq<Endorsement>, interactionWeight: real, backwardDiscount: real,
      restartWeight: real, maxBackwardHops: nat, tolerance: real, maxIterations: nat, saturate: real -> real)
    returns (ledger: RepuLinkLedger, error: Option<EndorsementError>)
    requires |nodeIds| > 0 && 0.0 <= interactionWeight <= 1.0 && 0.0 <= backwardDiscount < 1.0
    requires 0.0 < restartWeight < 1.0
    requires maxBackwardHops >= 1 && tolerance > 0.0 && maxIterations >= 1 && Saturating(saturate)
    ensures fresh(ledger) && ledger.Valid() && ledger.nodes == Unique(nodeIds)
    ensures error == None <==> AllEndorsable(ledger.nodes, map[], supplied)
    ensures error == None ==> Endorsing(map[], supplied, ledger.endorsements) && ledger.IsColdStart(ledger.reputation)
    ensures ledger.delivered == ledger.drops == map[]
    ensures forall n :: n in ledger.nodes ==> ledger.penalty[n] == ledger.reward[n] == 0.0
  {
    hide AllEndorsable, Endorsing, Distribution, Value, Saturating, Unique, Distinct, KnownEvidence, Elements,
         RepuLinkLedger.IsColdStart;
    ledger := new RepuLinkLedger(nodeIds, interactionWeight, backwardDiscount, restartWeight, maxBackwardHops,
      tolerance, maxIterations, saturate);
    error := ledger.Supply(supplied);
  }
}
