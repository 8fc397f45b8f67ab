/** Dictionaries as vectors and rows: the bookkeeping shared by the trust ledgers of
    aegis_router/solvers.py and aegis_router/repulink.py. */
module SparseVectors {
  import opened Network
  import opened PowerIteration
  import opened Sequences

  function Value(v: map<NodeId, real>): Vec {
    n => if n in v then v[n] else 0.0
  }

  function Entries(rows: map<NodeId, map<NodeId, real>>): Matrix {
    (s, t) => if s in rows && t in rows[s] then rows[s][t] else 0.0
  }

  function Count(m: map<Edge, real>, e: Edge): real {
    if e in m then m[e] else 0.0
  }

  function Incremented(m: map<Edge, real>, e: Edge): map<Edge, real> {
    m[e := Count(m, e) + 1.0]
  }

  ghost predicate KnownEvidence(ns: seq<NodeId>, m: map<Edge, real>) {
    forall e :: e in m ==> e.0 in ns && e.1 in ns && m[e] >= 0.0
  }

  /** Net positive evidence of one node about another. */
  function Score(delivered: map<Edge, real>, drops: map<Edge, real>, s: NodeId, t: NodeId): real {
    var net := Count(delivered, (s, t)) - Count(drops, (s, t));
    if net > 0.0 then net else 0.0
  }

  function Scores(delivered: map<Edge, real>, drops: map<Edge, real>, s: NodeId): Vec {
    t => Score(delivered, drops, s, t)
  }

  lemma Normalized(ns: seq<NodeId>, f: Vec, total: real, g: Vec)
    requires total == Sum(ns, f) > 0.0
    requires forall n :: n in ns ==> f(n) >= 0.0 && g(n) == f(n) / total
    ensures Distribution(ns, g)
  {
    hide Sum;
    var k := 1.0 / total;
    forall n | n in ns ensures g(n) >= 0.0 && g(n) == k * f(n) {
      Quotient(f(n), total);
    }
    SumScaled(ns, k, f, g);
    Quotient(total, total);
  }

  lemma Quotient(x: real, total: real)
    requires x >= 0.0 && total > 0.0
    ensures x / total == (1.0 / total) * x >= 0.0 && total / total == 1.0
  {
  }

  /** tuple(dict.fromkeys(ns)): the first occurrence of each node, in order. */
  function Unique(ns: seq<NodeId>): (r: seq<NodeId>)
    ensures Distinct(r) && forall n :: n in r <==> n in ns
  {
    if |ns| == 0 then [] else
      var r := Unique(ns[..|ns| - 1]);
      var z := ns[|ns| - 1];
      assert ns == ns[..|ns| - 1] + [z];
      if z in r then r else r + [z]
  }

  function Uniform(recipients: seq<NodeId>): Vec
    requires |recipients| > 0
  {
    n => if n in recipients then 1.0 / |recipients| as real else 0.0
  }

  function Indicator(s: set<NodeId>): Vec {
    n => if n in s then 1.0 else 0.0
  }

  lemma {:induction false} IndicatorCount(ns: seq<NodeId>, s: set<NodeId>)
    requires Distinct(ns)
    ensures Sum(ns, Indicator(s)) == |s * Elements(ns)| as real
  {
    if |ns| == 0 {
      assert s * Elements(ns) == {};
    } else {
      var init, z := ns[..|ns| - 1], ns[|ns| - 1];
      IndicatorCount(init, s);
      assert ns == init + [z];
      assert z !in init;
      assert s * Elements(ns) == s * Elements(init) + (if z in s then {z} else {});
    }
  }

  /** Equal weight on the recipients is a distribution over any node list that contains them. */
  lemma UniformIsDistribution(ns: seq<NodeId>, recipients: seq<NodeId>)
    requires Distinct(ns) && Distinct(recipients) && |recipients| > 0
    requires forall n :: n in recipients ==> n in ns
    ensures Distribution(ns, Uniform(recipients))
  {
    hide Sum;
    var s, k := Elements(recipients), 1.0 / |recipients| as real;
    IndicatorCount(ns, s);
    DistinctSize(recipients);
    forall i | 0 <= i < |recipients| ensures recipients[i] in ns {
      var r := recipients[i];
      assert r in recipients;
      assert r in ns;
    }
    Contained(recipients, ns);
    forall n | n in ns ensures Uniform(recipients)(n) == k * Indicator(s)(n) {
      assert n in s <==> n in recipients;
    }
    SumScaled(ns, k, Indicator(s), Uniform(recipients));
  }

  /** Rows whose entries are those of the specified trust matrix. */
  ghost predicate AreRows(ns: seq<NodeId>, rows: map<NodeId, map<NodeId, real>>, c: Matrix) {
    && rows.Keys == Elements(ns)
    && (forall s :: s in rows ==> rows[s].Keys <= rows.Keys)
    && forall s, t {:trigger c(s, t)} :: s in ns && t in ns ==> Entries(rows)(s, t) == c(s, t)
  }

  ghost predicate Holds(ns: seq<NodeId>, v: map<NodeId, real>, x: Vec) {
    v.Keys == Elements(ns) && forall n :: n in ns ==> Value(v)(n) == x(n)
  }

  lemma StartHolds(ns: seq<NodeId>, c: Matrix, a: real, pretrust: map<NodeId, real>)
    requires pretrust.Keys == Elements(ns)
    ensures Holds(ns, pretrust, Iterate(ns, c, a, Value(pretrust), Value(pretrust), 0))
  {
  }

  lemma L1Holds(ns: seq<NodeId>, v: map<NodeId, real>, w: map<NodeId, real>, x: Vec, y: Vec)
    requires Holds(ns, v, x) && Holds(ns, w, y)
    ensures L1(ns, Value(v), Value(w)) == L1(ns, x, y)
  {
    L1Congruent(ns, Value(v), Value(w), y);
    L1Congruent(ns, y, Value(v), x);
  }

  /** The mass that one source sends along its row has been added. */
  ghost predicate RowAdded(row: map<NodeId, real>, mass: real, before: map<NodeId, real>, after: map<NodeId, real>) {
    after.Keys == before.Keys && forall t :: t in before ==> after[t] == before[t] + mass * Value(row)(t)
  }

  method AddRow(row: map<NodeId, real>, mass: real, before: map<NodeId, real>) returns (after: map<NodeId, real>)
    requires row.Keys <= before.Keys
    ensures RowAdded(row, mass, before, after)
  {
    after := before;
    var todo := row.Keys;
    while todo != {}
      invariant todo <= row.Keys && after.Keys == before.Keys
      invariant forall t :: t in before ==>
        after[t] == if t in todo || t !in row then before[t] else before[t] + mass * row[t]
    {
      var t := PickNode(todo);
      after := after[t := after[t] + mass * row[t]];
      todo := todo - {t};
    }
  }

  lemma RowEntryAdded(row: map<NodeId, real>, mass: real, before: map<NodeId, real>, after: map<NodeId, real>,
      t: NodeId)
    requires RowAdded(row, mass, before, after)
    ensures Value(after)(t) == Value(before)(t) + if t in before then mass * Value(row)(t) else 0.0
  {
  }

  lemma SameKeys(row: map<NodeId, real>, mass: real, before: map<NodeId, real>, after: map<NodeId, real>)
    requires RowAdded(row, mass, before, after)
    ensures after.Keys == before.Keys
  {
  }

  /** What each source contributes to t in one pass. */
  function Sent(weight: real, c: Matrix, x: Vec, t: NodeId): Vec {
    s => weight * (x(s) * c(s, t))
  }

  lemma SumNext(ns: seq<NodeId>, i: nat, f: Vec)
    requires i < |ns|
    ensures Sum(ns[..i + 1], f) == Sum(ns[..i], f) + f(ns[i])
  {
    assert ns[..i + 1][..i] == ns[..i];
  }
}
