/** GlobalTrustLedger, the shared EigenTrust ledger of aegis_router/solvers.py. */
module EigenTrust {
  import opened Network
  import opened PowerIteration
  import opened Sequences
  import opened SparseVectors
  import opened Evidence

  /** Row of the trust matrix: normalized evidence, or the pretrust when there is none. */
  function TrustEntry(ns: seq<NodeId>, delivered: map<Edge, real>, drops: map<Edge, real>, pretrust: Vec, s: NodeId,
      t: NodeId): real
  {
    var total := Sum(ns, Scores(delivered, drops, s));
    if total > 0.0 then Score(delivered, drops, s, t) / total else pretrust(t)
  }

  function LocalTrust(ns: seq<NodeId>, delivered: map<Edge, real>, drops: map<Edge, real>, pretrust: Vec): Matrix {
    (s, t) => TrustEntry(ns, delivered, drops, pretrust, s, t)
  }

  lemma LocalTrustStochastic(ns: seq<NodeId>, delivered: map<Edge, real>, drops: map<Edge, real>, pretrust: Vec)
    requires Distribution(ns, pretrust)
    ensures StochasticRows(ns, LocalTrust(ns, delivered, drops, pretrust))
  {
    var c := LocalTrust(ns, delivered, drops, pretrust);
    forall s | s in ns ensures Distribution(ns, t => c(s, t)) {
      var total := Sum(ns, Scores(delivered, drops, s));
      if total > 0.0 {
        Normalized(ns, Scores(delivered, drops, s), total, t => c(s, t));
      } else {
        SumCongruent(ns, pretrust, t => c(s, t));
      }
    }
  }

  /** Trust follows the evidence: a node trusts exactly the peers that delivered more for it than they dropped, in the
      ratio of the difference, and the pretrusted ones if there is no such peer. */
  lemma TrustFollowsEvidence(ns: seq<NodeId>, delivered: map<Edge, real>, drops: map<Edge, real>, pretrust: Vec,
      s: NodeId)
    ensures var c := LocalTrust(ns, delivered, drops, pretrust);
      if exists t :: t in ns && Earns(delivered, drops, s, t) then EvidenceRow(ns, delivered, drops, s, t => c(s, t))
      else forall t :: c(s, t) == pretrust(t)
  {
    hide Sum, Score, Earns, EvidenceRow;
    var c := LocalTrust(ns, delivered, drops, pretrust);
    SomeEarned(ns, delivered, drops, s);
    if Sum(ns, Scores(delivered, drops, s)) > 0.0 {
      SharesAreEvidence(ns, delivered, drops, s, t => c(s, t));
    }
  }

  /** A peer with more deliveries or fewer drops is trusted no less, and no other peer more. */
  lemma BetterTrusted(ns: seq<NodeId>, delivered: map<Edge, real>, drops: map<Edge, real>, delivered': map<Edge, real>,
      drops': map<Edge, real>, pretrust: Vec, s: NodeId, t: NodeId, u: NodeId)
    requires Distinct(ns) && t in ns && u in ns && Distribution(ns, pretrust)
    requires Favours(delivered, drops, delivered', drops', s, t)
    ensures var c, c' := LocalTrust(ns, delivered, drops, pretrust), LocalTrust(ns, delivered', drops', pretrust);
      if u == t then c(s, t) <= c'(s, t) else c'(s, u) <= c(s, u)
  {
    hide Favours, Score, Sum;
    ScoresFavour(delivered, drops, delivered', drops', s, t);
    forall n | n in ns ensures 0.0 <= pretrust(n) <= 1.0 { TermBelowSum(ns, pretrust, n); }
    ShareRises(ns, Scores(delivered, drops, s), Scores(delivered', drops', s), pretrust, t, u);
  }

  /** So one more delivery by a peer never lowers the trust in it, and one more drop never raises it. */
  lemma OneMoreOutcome(ns: seq<NodeId>, delivered: map<Edge, real>, drops: map<Edge, real>, pretrust: Vec, s: NodeId,
      t: NodeId)
    requires Distinct(ns) && t in ns && Distribution(ns, pretrust)
    ensures LocalTrust(ns, delivered, Incremented(drops, (s, t)), pretrust)(s, t)
         <= LocalTrust(ns, delivered, drops, pretrust)(s, t)
         <= LocalTrust(ns, Incremented(delivered, (s, t)), drops, pretrust)(s, t)
  {
    hide LocalTrust, Favours, Incremented;
    OutcomeFavours(delivered, drops, s, t);
    BetterTrusted(ns, delivered, Incremented(drops, (s, t)), delivered, drops, pretrust, s, t, t);
    BetterTrusted(ns, delivered, drops, Incremented(delivered, (s, t)), drops, pretrust, s, t, t);
  }

  /** Every node outside s gives to s at most the fraction e of its surplus of deliveries over drops, if it has any. */
  ghost predicate EvidenceLeak(ns: seq<NodeId>, delivered: map<Edge, real>, drops: map<Edge, real>, s: set<NodeId>,
      e: real)
  {
    forall n :: n in ns && n !in s ==>
      var surplus: Vec := t =>
        if Count(delivered, (n, t)) <= Count(drops, (n, t)) then 0.0
        else Count(delivered, (n, t)) - Count(drops, (n, t));
      Mass(ns, s, surplus) <= e * Sum(ns, surplus)
  }

  lemma LeakedScores(ns: seq<NodeId>, delivered: map<Edge, real>, drops: map<Edge, real>, s: set<NodeId>, e: real,
      n: NodeId)
    requires EvidenceLeak(ns, delivered, drops, s, e) && n in ns && n !in s
    ensures Mass(ns, s, Scores(delivered, drops, n)) <= e * Sum(ns, Scores(delivered, drops, n))
  {
    hide Sum, Score;
    var f := Scores(delivered, drops, n);
    var surplus: Vec := t =>
      if Count(delivered, (n, t)) <= Count(drops, (n, t)) then 0.0
      else Count(delivered, (n, t)) - Count(drops, (n, t));
    assert Mass(ns, s, surplus) <= e * Sum(ns, surplus);
    forall t ensures f(t) == surplus(t) { ScoreEarned(delivered, drops, n, t); }
    SumCongruent(ns, f, surplus);
    SumCongruent(ns, Within(s, f), Within(s, surplus));
  }

  lemma EvidenceBoundsRows(ns: seq<NodeId>, delivered: map<Edge, real>, drops: map<Edge, real>, pretrust: Vec,
      s: set<NodeId>, e: real)
    requires Distribution(ns, pretrust) && e >= 0.0 && EvidenceLeak(ns, delivered, drops, s, e)
    requires forall n :: n in s ==> pretrust(n) == 0.0
    ensures Leaks(ns, LocalTrust(ns, delivered, drops, pretrust), s, e)
  {
    var c := LocalTrust(ns, delivered, drops, pretrust);
    LocalTrustStochastic(ns, delivered, drops, pretrust);
    forall n | n in ns ensures RowMass(ns, c, s, n) <= if n in s then 1.0 else e {
      if n in s {
        assert Distribution(ns, t => c(n, t));
        SumMonotone(ns, Within(s, t => c(n, t)), t => c(n, t));
      } else {
        OutsideRow(ns, delivered, drops, pretrust, s, e, n);
      }
    }
  }

  lemma OutsideRow(ns: seq<NodeId>, delivered: map<Edge, real>, drops: map<Edge, real>, pretrust: Vec, s: set<NodeId>,
      e: real, n: NodeId)
    requires e >= 0.0 && EvidenceLeak(ns, delivered, drops, s, e) && n in ns && n !in s
    requires forall m :: m in s ==> pretrust(m) == 0.0
    ensures RowMass(ns, LocalTrust(ns, delivered, drops, pretrust), s, n) <= e
  {
    var c := LocalTrust(ns, delivered, drops, pretrust);
    var total := Sum(ns, Scores(delivered, drops, n));
    if total > 0.0 {
      LeakedScores(ns, delivered, drops, s, e, n);
      NormalizedMass(ns, s, Scores(delivered, drops, n), total, t => c(n, t), e);
    } else {
      SumZero(ns, Within(s, t => c(n, t)));
    }
  }

  lemma NormalizedMass(ns: seq<NodeId>, s: set<NodeId>, f: Vec, total: real, g: Vec, e: real)
    requires total > 0.0 && Mass(ns, s, f) <= e * total
    requires forall n :: n in ns ==> g(n) == f(n) / total
    ensures Mass(ns, s, g) <= e
  {
    var k := 1.0 / total;
    forall n | n in ns ensures Within(s, g)(n) == k * Within(s, f)(n) {
      if n in s { assert f(n) / total == k * f(n); }
    }
    SumScaled(ns, k, Within(s, f), Within(s, g));
    DivideOut(Mass(ns, s, f), e, total);
  }

  lemma DivideOut(m: real, e: real, total: real)
    requires total > 0.0 && m <= e * total
    ensures (1.0 / total) * m <= e
  {
  }

  /** Sybil containment: nodes without pretrust, to which outsiders give at most the fraction e of
      their evidence, hold at most (1-a)e/a of the trust after any number of iterations. */
  lemma SybilContainment(ns: seq<NodeId>, delivered: map<Edge, real>, drops: map<Edge, real>, pretrust: Vec,
      damping: real, s: set<NodeId>, e: real, k: nat)
    requires Distribution(ns, pretrust) && 0.0 < damping <= 1.0
    requires e >= 0.0 && EvidenceLeak(ns, delivered, drops, s, e)
    requires forall n :: n in s ==> pretrust(n) == 0.0
    ensures Mass(ns, s, Iterate(ns, LocalTrust(ns, delivered, drops, pretrust), damping, pretrust, pretrust, k))
         <= (1.0 - damping) * e / damping
  {
    var c := LocalTrust(ns, delivered, drops, pretrust);
    LocalTrustStochastic(ns, delivered, drops, pretrust);
    EvidenceBoundsRows(ns, delivered, drops, pretrust, s, e);
    Containment(ns, c, damping, pretrust, s, e, k);
    DivideBy(damping, Mass(ns, s, Iterate(ns, c, damping, pretrust, pretrust, k)), (1.0 - damping) * e);
  }

  lemma DivideBy(a: real, m: real, b: real)
    requires a > 0.0 && a * m <= b
    ensures m <= b / a
  {
  }

  lemma {:induction false} PowAdd(b: real, m: nat, n: nat)
    ensures Pow(b, m + n) == Pow(b, m) * Pow(b, n)
  {
    if m > 0 {
      PowAdd(b, m - 1, n);
    }
  }

  /** An upper bound on one power gives an upper bound on its square. */
  lemma PowSquare(b: real, m: nat, u: real, v: real)
    requires 0.0 <= Pow(b, m) <= u && u * u <= v
    ensures 0.0 <= Pow(b, m + m) <= v
  {
    PowAdd(b, m, m);
    ScaledLeq(Pow(b, m), Pow(b, m), u);
    ScaledLeq(u, Pow(b, m), u);
  }

  /** 2 * 0.85^146 <= 1e-10: the default damping and tolerance. */
  lemma DefaultRate()
    ensures 2.0 * Pow(1.0 - 0.15, 146) <= 0.0000000001
  {
    var b := 1.0 - 0.15;
    assert Pow(b, 1) == b * Pow(b, 0) == 0.85;
    PowSquare(b, 1, 0.85, 0.7225);
    PowSquare(b, 2, 0.7225, 0.52200625);
    PowSquare(b, 4, 0.52200625, 0.27249052503907);
    PowSquare(b, 8, 0.27249052503907, 0.07425108623607);
    PowSquare(b, 16, 0.07425108623607, 0.00551322380724);
    PowSquare(b, 32, 0.00551322380724, 0.00003039563675);
    PowSquare(b, 64, 0.00003039563675, 0.000000000923894733438);
    PowAdd(b, 128, 16);
    PowAdd(b, 144, 2);
    ScaledLeq(Pow(b, 128), Pow(b, 16), 0.07425108623607);
    ScaledLeq(0.07425108623607, Pow(b, 128), 0.000000000923894733438);
    ScaledLeq(0.7225, Pow(b, 144), 0.00000000006860018753);
  }

  lemma SentBy(weight: real, rows: map<NodeId, map<NodeId, real>>, current: map<NodeId, real>, s: NodeId, t: NodeId)
    requires s in rows && s in current
    ensures Sent(weight, Entries(rows), Value(current), t)(s) == weight * current[s] * Value(rows[s])(t)
  {
  }

  /** The vector being built after the first i sources have sent their mass. */
  ghost predicate PartialPass(ns: seq<NodeId>, i: nat, rows: map<NodeId, map<NodeId, real>>, damping: real,
      pretrust: map<NodeId, real>, current: map<NodeId, real>, updated: map<NodeId, real>)
    requires i <= |ns|
  {
    && updated.Keys == pretrust.Keys
    && forall t :: t in updated ==>
      updated[t] == damping * Value(pretrust)(t) + Sum(ns[..i], Sent(1.0 - damping, Entries(rows), Value(current), t))
  }

  lemma PassSource(ns: seq<NodeId>, i: nat, rows: map<NodeId, map<NodeId, real>>, damping: real,
      pretrust: map<NodeId, real>, current: map<NodeId, real>, before: map<NodeId, real>, after: map<NodeId, real>,
      mass: real)
    requires i < |ns| && ns[i] in rows && ns[i] in current && mass == (1.0 - damping) * current[ns[i]]
    requires PartialPass(ns, i, rows, damping, pretrust, current, before)
    requires RowAdded(rows[ns[i]], mass, before, after)
    ensures PartialPass(ns, i + 1, rows, damping, pretrust, current, after)
  {
    hide Sum, Sent, Entries, Value;
    forall t | t in after
      ensures after[t] == damping * Value(pretrust)(t)
        + Sum(ns[..i + 1], Sent(1.0 - damping, Entries(rows), Value(current), t))
    {
      SumNext(ns, i, Sent(1.0 - damping, Entries(rows), Value(current), t));
      SentBy(1.0 - damping, rows, current, ns[i], t);
    }
  }

  lemma PassStarts(ns: seq<NodeId>, rows: map<NodeId, map<NodeId, real>>, damping: real, pretrust: map<NodeId, real>,
      current: map<NodeId, real>, updated: map<NodeId, real>)
    requires updated.Keys == pretrust.Keys && forall t :: t in updated ==> updated[t] == damping * pretrust[t]
    ensures PartialPass(ns, 0, rows, damping, pretrust, current, updated)
  {
  }

  /** One pass of the double loop of recompute: damping*p, then every source's mass along its row. */
  method Propagate(ns: seq<NodeId>, rows: map<NodeId, map<NodeId, real>>, damping: real, pretrust: map<NodeId, real>,
      current: map<NodeId, real>) returns (updated: map<NodeId, real>)
    requires Elements(ns) == rows.Keys == pretrust.Keys == current.Keys
    requires forall s :: s in rows ==> rows[s].Keys <= rows.Keys
    ensures updated.Keys == Elements(ns)
    ensures forall t :: t in updated ==>
      updated[t] == Step(ns, Entries(rows), damping, Value(pretrust), Value(current))(t)
  {
    hide PartialPass, RowAdded, Step, Sum, Value, Entries;
    updated := map n | n in pretrust :: damping * pretrust[n];
    PassStarts(ns, rows, damping, pretrust, current, updated);
    var propagatedWeight := 1.0 - damping;
    var i := 0;
    while i < |ns|
      invariant 0 <= i <= |ns| && PartialPass(ns, i, rows, damping, pretrust, current, updated)
      invariant updated.Keys == Elements(ns)
    {
      var source := ns[i];
      assert source in Elements(ns);
      ghost var before := updated;
      var mass := propagatedWeight * current[source];
      updated := AddRow(rows[source], mass, updated);
      SameKeys(rows[source], mass, before, updated);
      PassSource(ns, i, rows, damping, pretrust, current, before, updated, mass);
      i := i + 1;
    }
    PassEnds(ns, rows, damping, pretrust, current, updated);
  }

  lemma PassEnds(ns: seq<NodeId>, rows: map<NodeId, map<NodeId, real>>, damping: real, pretrust: map<NodeId, real>,
      current: map<NodeId, real>, updated: map<NodeId, real>)
    requires PartialPass(ns, |ns|, rows, damping, pretrust, current, updated)
    ensures forall t :: t in updated ==>
      updated[t] == Step(ns, Entries(rows), damping, Value(pretrust), Value(current))(t)
  {
    assert ns[..|ns|] == ns;
    forall t | t in updated ensures updated[t] == Step(ns, Entries(rows), damping, Value(pretrust), Value(current))(t) {
      PassIsStep(ns, Entries(rows), damping, Value(pretrust), Value(current), t);
    }
  }

  lemma PassIsStep(ns: seq<NodeId>, c: Matrix, a: real, p: Vec, x: Vec, t: NodeId)
    ensures Step(ns, c, a, p, x)(t) == a * p(t) + Sum(ns, Sent(1.0 - a, c, x, t))
  {
    SumScaled(ns, 1.0 - a, s => x(s) * c(s, t), Sent(1.0 - a, c, x, t));
  }

  /** A pass over the real rows computes the next iterate, and its total is already one. */
  lemma NextIterate(ns: seq<NodeId>, rows: map<NodeId, map<NodeId, real>>, c: Matrix, a: real,
      pretrust: map<NodeId, real>, current: map<NodeId, real>, updated: map<NodeId, real>, k: nat)
    requires 0.0 <= a <= 1.0 && StochasticRows(ns, c) && AreRows(ns, rows, c) && Distribution(ns, Value(pretrust))
    requires Holds(ns, current, Iterate(ns, c, a, Value(pretrust), Value(pretrust), k)) && updated.Keys == Elements(ns)
    requires forall t :: t in updated ==> updated[t] == Step(ns, Entries(rows), a, Value(pretrust), Value(current))(t)
    ensures Holds(ns, updated, Iterate(ns, c, a, Value(pretrust), Value(pretrust), k + 1))
    ensures Sum(ns, Value(updated)) == 1.0
  {
    var p := Value(pretrust);
    var y := Iterate(ns, c, a, p, p, k + 1);
    forall t | t in ns ensures Value(updated)(t) == y(t) {
      assert forall s :: s in ns ==> Entries(rows)(s, t) == c(s, t);
      StepCongruent(ns, Entries(rows), c, a, p, Value(current), Iterate(ns, c, a, p, p, k), t);
    }
    IterateKeepsMass(ns, c, a, p, p, k + 1);
    SumCongruent(ns, Value(updated), y);
  }

  function Normalize(v: map<NodeId, real>, total: real): map<NodeId, real>
    requires total != 0.0
  {
    map n | n in v :: v[n] / total
  }

  lemma NormalizeByOne(v: map<NodeId, real>)
    ensures Normalize(v, 1.0) == v
  {
  }

  /** One iteration of recompute: propagate, renormalize, measure the change. */
  method OneIteration(ns: seq<NodeId>, rows: map<NodeId, map<NodeId, real>>, ghost c: Matrix, damping: real,
      pretrust: map<NodeId, real>, current: map<NodeId, real>, ghost k: nat)
    returns (raised: bool, updated: map<NodeId, real>, residual: real)
    requires 0.0 <= damping <= 1.0 && StochasticRows(ns, c) && AreRows(ns, rows, c)
    requires pretrust.Keys == Elements(ns) && Distribution(ns, Value(pretrust))
    requires Holds(ns, current, Iterate(ns, c, damping, Value(pretrust), Value(pretrust), k))
    ensures !raised
    ensures Holds(ns, updated, Iterate(ns, c, damping, Value(pretrust), Value(pretrust), k + 1))
    ensures residual == Change(ns, c, damping, Value(pretrust), k + 1)
  {
    updated := Propagate(ns, rows, damping, pretrust, current);
    NextIterate(ns, rows, c, damping, pretrust, current, updated, k);
    var total := Sum(ns, Value(updated));
    if total <= 0.0 {
      return true, updated, 0.0;
    }
    NormalizeByOne(updated);
    updated := Normalize(updated, total);
    residual := L1(ns, Value(updated), Value(current));
    ghost var p := Value(pretrust);
    L1Holds(ns, updated, current, Iterate(ns, c, damping, p, p, k + 1), Iterate(ns, c, damping, p, p, k));
    raised := false;
  }

  /** The iteration loop: stop at the first change within the tolerance. */
  method PowerIterate(ns: seq<NodeId>, rows: map<NodeId, map<NodeId, real>>, ghost c: Matrix, damping: real,
      pretrust: map<NodeId, real>, tolerance: real, maxIterations: nat)
    returns (raised: bool, current: map<NodeId, real>, iterations: nat, residual: real, converged: bool)
    requires 0.0 <= damping <= 1.0 && StochasticRows(ns, c) && AreRows(ns, rows, c) && maxIterations >= 1
    requires pretrust.Keys == Elements(ns) && Distribution(ns, Value(pretrust))
    ensures !raised && current.Keys == Elements(ns)
    ensures Outcome(ns, c, damping, Value(pretrust), tolerance, maxIterations, iterations, residual, converged,
      Value(current))
  {
    hide Iterate, Change, L1, Step, StochasticRows, Distribution;
    ghost var p := Value(pretrust);
    StartHolds(ns, c, damping, pretrust);
    current, residual, converged := pretrust, 0.0, false;
    iterations := 0;
    while iterations < maxIterations
      invariant 0 <= iterations <= maxIterations
      invariant Holds(ns, current, Iterate(ns, c, damping, p, p, iterations))
      invariant forall k :: 1 <= k <= iterations ==> Change(ns, c, damping, p, k) > tolerance
      invariant iterations > 0 ==> residual == Change(ns, c, damping, p, iterations)
    {
      raised, current, residual := OneIteration(ns, rows, c, damping, pretrust, current, iterations);
      if raised {
        return;
      }
      iterations := iterations + 1;
      if residual <= tolerance {
        converged := true;
        return;
      }
    }
    raised := false;
  }

  /** The positive net evidence of one node, and what it amounts to. */
  ghost predicate PositiveScores(ns: seq<NodeId>, delivered: map<Edge, real>, drops: map<Edge, real>, s: NodeId,
      positive: map<NodeId, real>)
  {
    && (forall t :: t in positive <==> t in ns && Score(delivered, drops, s, t) > 0.0)
    && forall t :: t in positive ==> positive[t] == Score(delivered, drops, s, t)
  }

  lemma ScoresTotal(ns: seq<NodeId>, delivered: map<Edge, real>, drops: map<Edge, real>, s: NodeId,
      positive: map<NodeId, real>)
    requires PositiveScores(ns, delivered, drops, s, positive)
    ensures Sum(ns, Value(positive)) == Sum(ns, Scores(delivered, drops, s))
  {
    hide Sum, Score;
    forall t | t in ns ensures Value(positive)(t) == Scores(delivered, drops, s)(t) {
      ScoreEarned(delivered, drops, s, t);
    }
    SumCongruent(ns, Value(positive), Scores(delivered, drops, s));
  }

  lemma SharedOut(ns: seq<NodeId>, delivered: map<Edge, real>, drops: map<Edge, real>, pretrust: map<NodeId, real>,
      s: NodeId, positive: map<NodeId, real>, total: real, row: map<NodeId, real>)
    requires PositiveScores(ns, delivered, drops, s, positive) && total == Sum(ns, Scores(delivered, drops, s))
    requires row == if total > 0.0 then map t | t in positive :: positive[t] / total else pretrust
    ensures forall t :: t in ns ==> Value(row)(t) == TrustEntry(ns, delivered, drops, Value(pretrust), s, t)
    ensures TrustRow(ns, delivered, drops, pretrust, s, row)
  {
    hide Sum, Score, Earns, EvidenceRow;
    SomeEarned(ns, delivered, drops, s);
    forall t | t in ns ensures Value(row)(t) == TrustEntry(ns, delivered, drops, Value(pretrust), s, t) {
      ScoreEarned(delivered, drops, s, t);
      if total > 0.0 { WholePart(0.0, total); }
    }
    if total > 0.0 {
      SharesAreEvidence(ns, delivered, drops, s, Value(row));
      forall t ensures t in row <==> t in ns && Earns(delivered, drops, s, t) {
        ScoreEarned(delivered, drops, s, t);
      }
    }
  }

  /** One row of local_trust: positive net evidence over its total, or the pretrust. */
  method OneRow(ns: seq<NodeId>, delivered: map<Edge, real>, drops: map<Edge, real>, pretrust: map<NodeId, real>,
      source: NodeId) returns (row: map<NodeId, real>)
    requires pretrust.Keys == Elements(ns)
    ensures row.Keys <= Elements(ns)
    ensures forall t :: t in ns ==> Value(row)(t) == TrustEntry(ns, delivered, drops, Value(pretrust), source, t)
    ensures TrustRow(ns, delivered, drops, pretrust, source, row)
  {
    hide Sum, Score, TrustEntry, TrustRow;
    var positive :=
      map t | t in Elements(ns) && Score(delivered, drops, source, t) > 0.0 :: Score(delivered, drops, source, t);
    ScoresTotal(ns, delivered, drops, source, positive);
    var total := Sum(ns, Value(positive));
    row := if total > 0.0 then map t | t in positive :: positive[t] / total else pretrust;
    SharedOut(ns, delivered, drops, pretrust, source, positive, total, row);
  }

  /** Who gets pretrust: the anchors, or every node if there are none. */
  lemma Recipients(nodeIds: seq<NodeId>, pretrusted: seq<NodeId>, recipients: seq<NodeId>)
    requires |nodeIds| > 0 && forall n :: n in pretrusted ==> n in nodeIds
    requires recipients == if |Unique(pretrusted)| > 0 then Unique(pretrusted) else Unique(nodeIds)
    ensures Elements(recipients) == Elements(if |pretrusted| > 0 then pretrusted else nodeIds)
    ensures Distinct(recipients) && |recipients| == |Elements(recipients)| > 0
    ensures forall n :: n in recipients ==> n in Unique(nodeIds)
  {
    assert nodeIds[0] in Unique(nodeIds);
    if |pretrusted| > 0 { assert pretrusted[0] in Unique(pretrusted); }
    if |Unique(pretrusted)| > 0 { assert Unique(pretrusted)[0] in pretrusted; }
    DistinctSize(recipients);
  }

  lemma EqualPretrust(ns: seq<NodeId>, recipients: seq<NodeId>, p: map<NodeId, real>)
    requires Distinct(ns) && Distinct(recipients) && |recipients| > 0 && forall n :: n in recipients ==> n in ns
    requires p == map n | n in Elements(ns) :: if n in recipients then 1.0 / |recipients| as real else 0.0
    ensures Distribution(ns, Value(p))
  {
    UniformIsDistribution(ns, recipients);
    SumCongruent(ns, Uniform(recipients), Value(p));
  }

  class GlobalTrustLedger {
    const nodes: seq<NodeId>
    const anchors: seq<NodeId>
    const damping: real
    const tolerance: real
    const maxIterations: nat
    const pretrust: map<NodeId, real>
    var delivered: map<Edge, real>
    var drops: map<Edge, real>
    var iterations: nat
    var residual: Option<real>  // None stands for infinity: nothing computed yet
    var converged: bool
    var trust: map<NodeId, real>

    ghost predicate Valid()
      reads this
    {
      && Distinct(nodes) && 0.0 <= damping <= 1.0 && tolerance > 0.0 && maxIterations >= 1
      && pretrust.Keys == trust.Keys == Elements(nodes)
      && Distribution(nodes, Value(pretrust)) && Distribution(nodes, Value(trust))
      && KnownEvidence(nodes, delivered) && KnownEvidence(nodes, drops)
    }

    /** The trust matrix the evidence stands for. */
    ghost function Matrix(): Matrix
      reads this`delivered, this`drops
    {
      LocalTrust(nodes, delivered, drops, Value(pretrust))
    }

    /** Equal pretrust for the anchors, or for every node when none is given. */
    constructor (nodeIds: seq<NodeId>, pretrusted: seq<NodeId>, damping: real, tolerance: real, maxIterations: nat)
      requires |nodeIds| > 0 && 0.0 <= damping <= 1.0 && tolerance > 0.0 && maxIterations >= 1
      requires forall n :: n in pretrusted ==> n in nodeIds
      ensures Valid() && (forall n :: n in nodes <==> n in nodeIds)
      ensures this.damping == damping && this.tolerance == tolerance && this.maxIterations == maxIterations
      ensures delivered == drops == map[] && trust == pretrust && !converged && residual == None
      ensures var recipients := Elements(if |pretrusted| > 0 then pretrusted else nodeIds);
        && |recipients| > 0
        && forall n :: n in nodeIds ==> pretrust[n] == if n in recipients then 1.0 / |recipients| as real else 0.0
    {
      hide Distinct, Unique, Distribution;
      var ns := Unique(nodeIds);
      this.nodes, this.anchors := ns, Unique(pretrusted);
      this.damping, this.tolerance, this.maxIterations := damping, tolerance, maxIterations;
      var recipients := if |Unique(pretrusted)| > 0 then Unique(pretrusted) else ns;
      Recipients(nodeIds, pretrusted, recipients);
      var weight := 1.0 / |recipients| as real;
      var p := map n | n in Elements(ns) :: if n in recipients then weight else 0.0;
      EqualPretrust(ns, recipients, p);
      this.pretrust, this.trust := p, p;
      this.delivered, this.drops := map[], map[];
      this.iterations, this.residual, this.converged := 0, None, false;
    }

    /** Count one outcome, unless an end is unknown (the source raises) or the peer was merely offline. */
    method Observe(fromNode: NodeId, neighbor: NodeId, isDelivered: bool, isDropped: bool, nodeDown: bool)
      returns (known: bool)
      requires Valid()
      modifies this`delivered, this`drops
      ensures Valid() && (known <==> fromNode in nodes && neighbor in nodes)
      ensures delivered == if known && !nodeDown && isDelivered then Incremented(old(delivered), (fromNode, neighbor))
        else old(delivered)
      ensures drops == if known && !nodeDown && isDropped then Incremented(old(drops), (fromNode, neighbor))
        else old(drops)
      ensures CountedOn(old(delivered), (fromNode, neighbor), known && !nodeDown && isDelivered, delivered)
      ensures CountedOn(old(drops), (fromNode, neighbor), known && !nodeDown && isDropped, drops)
    {
      hide CountedOn, Incremented, KnownEvidence, Distribution, Value;
      OneCounted(nodes, delivered, (fromNode, neighbor));
      OneCounted(nodes, drops, (fromNode, neighbor));
      if fromNode !in trust || neighbor !in trust {
        return false;
      }
      if nodeDown {
        return true;
      }
      var key := (fromNode, neighbor);
      if isDelivered {
        delivered := Incremented(delivered, key);
      }
      if isDropped {
        drops := Incremented(drops, key);
      }
      return true;
    }

    /** local_trust: sparse rows of positive net evidence, normalized. */
    method LocalTrustRows() returns (rows: map<NodeId, map<NodeId, real>>)
      requires Valid()
      ensures AreRows(nodes, rows, Matrix())
      ensures forall s :: s in nodes ==> s in rows && TrustRow(nodes, delivered, drops, pretrust, s, rows[s])
    {
      hide TrustRow;
      rows := map[];
      var i := 0;
      while i < |nodes|
        invariant 0 <= i <= |nodes| && rows.Keys == Elements(nodes[..i])
        invariant forall s :: s in rows ==> rows[s].Keys <= Elements(nodes)
        invariant forall s :: s in rows ==> TrustRow(nodes, delivered, drops, pretrust, s, rows[s])
        invariant forall s, t {:trigger Matrix()(s, t)} :: s in rows && t in nodes ==>
          Value(rows[s])(t) == Matrix()(s, t)
      {
        var row := OneRow(nodes, delivered, drops, pretrust, nodes[i]);
        rows := rows[nodes[i] := row];
        assert nodes[..i + 1] == nodes[..i] + [nodes[i]];
        i := i + 1;
      }
      assert nodes[..i] == nodes;
    }

    /** The fields hold the result of a whole iteration over the current evidence. */
    ghost predicate Computed()
      reads this
    {
      && residual.Some?
      && Outcome(nodes, Matrix(), damping, Value(pretrust), tolerance, maxIterations, iterations, residual.value,
                 converged, Value(trust))
    }

    /** recompute: power iteration from the pretrust until a change is within the tolerance. */
    method Recompute() returns (raised: bool)
      requires Valid()
      modifies this`iterations, this`residual, this`converged, this`trust
      ensures Valid() && !raised && Computed()
      ensures Accurate(nodes, Matrix(), damping, Value(pretrust), iterations, residual.value, Value(trust))
    {
      hide Outcome, Accurate, StochasticRows, Distribution, LocalTrust, AreRows, KnownEvidence, Distinct, Elements;
      var rows := LocalTrustRows();
      ghost var c, p := Matrix(), Value(pretrust);
      LocalTrustStochastic(nodes, delivered, drops, p);
      var current, change;
      raised, current, iterations, change, converged := PowerIterate(nodes, rows, c, damping, pretrust, tolerance,
        maxIterations);
      residual := Some(change);
      if raised {
        return;
      }
      OutcomeGuarantees(nodes, c, damping, p, tolerance, maxIterations, iterations, change, converged, Value(current));
      AccurateIsDistribution(nodes, c, damping, p, iterations, change, Value(current));
      trust := current;
    }
  }

  /** Containment of the trust a recompute leaves: nodes without pretrust, to which outsiders give at most
      the fraction e of their evidence, hold at most (1-a)e/a of it. */
  lemma TrustContainment(ledger: GlobalTrustLedger, s: set<NodeId>, e: real)
    requires ledger.Valid() && ledger.Computed() && ledger.damping > 0.0
    requires e >= 0.0 && EvidenceLeak(ledger.nodes, ledger.delivered, ledger.drops, s, e)
    requires forall n :: n in s ==> Value(ledger.pretrust)(n) == 0.0
    ensures Mass(ledger.nodes, s, Value(ledger.trust)) <= (1.0 - ledger.damping) * e / ledger.damping
  {
    hide EvidenceLeak, LocalTrust, Sum, Iterate, Value;
    var ns, d, p := ledger.nodes, ledger.damping, Value(ledger.pretrust);
    var c := LocalTrust(ns, ledger.delivered, ledger.drops, p);
    var x := Iterate(ns, c, d, p, p, ledger.iterations);
    SybilContainment(ns, ledger.delivered, ledger.drops, p, d, s, e, ledger.iterations);
    assert Mass(ns, s, x) <= (1.0 - d) * e / d;
    SumCongruent(ns, Within(s, Value(ledger.trust)), Within(s, x));
    assert Mass(ns, s, Value(ledger.trust)) == Mass(ns, s, x);
  }

  /** With the default damping, tolerance and iteration limit every recompute has converged by iteration 146. */
  lemma DefaultsConverge(ledger: GlobalTrustLedger)
    requires ledger.Valid() && ledger.Computed()
    requires ledger.damping == 0.15 && ledger.tolerance == 0.0000000001 && ledger.maxIterations == 200
    ensures ledger.converged && ledger.iterations <= 146
  {
    var p := Value(ledger.pretrust);
    LocalTrustStochastic(ledger.nodes, ledger.delivered, ledger.drops, p);
    DefaultRate();
    ConvergedBy(ledger.nodes, ledger.Matrix(), ledger.damping, p, ledger.tolerance, ledger.maxIterations,
      ledger.iterations, ledger.residual.value, ledger.converged, Value(ledger.trust), 146);
  }
}
