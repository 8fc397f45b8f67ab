/** What counts of deliveries and drops say about peers, once normalized: the rows of both trust ledgers
    (aegis_router/solvers.py, aegis_router/repulink.py). */
module Evidence {
  import opened Network
  import opened PowerIteration
  import opened Sequences
  import opened SparseVectors
  import opened Reals

  /** t has delivered for s more often than it dropped. */
  predicate Earns(delivered: map<Edge, real>, drops: map<Edge, real>, s: NodeId, t: NodeId) {
    Count(delivered, (s, t)) > Count(drops, (s, t))
  }

  predicate InRatio(x: real, a: real, y: real, b: real) {
    x * b == y * a
  }

  /** A row over evidence: it favours exactly the nodes that delivered more for s than they dropped, in the ratio of
      deliveries less drops, and its total is one. */
  ghost predicate EvidenceRow(ns: seq<NodeId>, delivered: map<Edge, real>, drops: map<Edge, real>, s: NodeId,
      row: Vec)
  {
    && Distribution(ns, row)
    && (forall t :: t in ns ==> (row(t) > 0.0 <==> Earns(delivered, drops, s, t)))
    && forall t, u :: t in ns && u in ns && Earns(delivered, drops, s, t) && Earns(delivered, drops, s, u) ==>
         InRatio(row(t), Count(delivered, (s, t)) - Count(drops, (s, t)),
                 row(u), Count(delivered, (s, u)) - Count(drops, (s, u)))
  }

  /** A row of one node's trust: over its evidence if some peer has earned any, and else the fallback. */
  ghost predicate TrustRow(ns: seq<NodeId>, delivered: map<Edge, real>, drops: map<Edge, real>,
      fallback: map<NodeId, real>, s: NodeId, row: map<NodeId, real>)
  {
    if exists t :: t in ns && Earns(delivered, drops, s, t)
    then EvidenceRow(ns, delivered, drops, s, Value(row))
         && forall t :: t in row <==> t in ns && Earns(delivered, drops, s, t)
    else row == fallback
  }

  /** A row over the weights of one node's edges: an entry for each edge with weight, in the ratio of the weights. */
  ghost predicate WeightRow(ns: seq<NodeId>, m: map<Edge, real>, s: NodeId, row: map<NodeId, real>) {
    && (forall t :: t in row <==> t in ns && Count(m, (s, t)) > 0.0)
    && (forall t, u :: t in row && u in row ==> InRatio(row[t], Count(m, (s, t)), row[u], Count(m, (s, u))))
    && (row == map[] || Distribution(ns, Value(row)))
  }

  /** One outcome more is counted on e if there was one; all other counts stay. */
  ghost predicate CountedOn(m: map<Edge, real>, e: Edge, one: bool, m': map<Edge, real>) {
    forall f :: Count(m', f) == Count(m, f) + (if f == e && one then 1.0 else 0.0)
  }

  lemma CountsNonNegative(ns: seq<NodeId>, m: map<Edge, real>)
    requires KnownEvidence(ns, m)
    ensures forall e :: Count(m, e) >= 0.0
  {
  }

  lemma OneCounted(ns: seq<NodeId>, m: map<Edge, real>, e: Edge)
    ensures CountedOn(m, e, true, Incremented(m, e)) && CountedOn(m, e, false, m)
    ensures KnownEvidence(ns, m) && e.0 in ns && e.1 in ns ==> KnownEvidence(ns, Incremented(m, e))
  {
  }

  lemma ScoreEarned(delivered: map<Edge, real>, drops: map<Edge, real>, s: NodeId, t: NodeId)
    ensures Score(delivered, drops, s, t) >= 0.0
    ensures Score(delivered, drops, s, t) > 0.0 <==> Earns(delivered, drops, s, t)
    ensures Earns(delivered, drops, s, t) ==>
      Score(delivered, drops, s, t) == Count(delivered, (s, t)) - Count(drops, (s, t))
  {
  }

  /** There is a score to share out exactly when some node has earned one. */
  lemma SomeEarned(ns: seq<NodeId>, delivered: map<Edge, real>, drops: map<Edge, real>, s: NodeId)
    ensures Sum(ns, Scores(delivered, drops, s)) > 0.0 <==> exists t :: t in ns && Earns(delivered, drops, s, t)
    ensures Sum(ns, Scores(delivered, drops, s)) >= 0.0
  {
    hide Sum, Score, Earns;
    var f := Scores(delivered, drops, s);
    forall t ensures f(t) >= 0.0 && (f(t) > 0.0 <==> Earns(delivered, drops, s, t)) {
      ScoreEarned(delivered, drops, s, t);
    }
    SumPositive(ns, f);
  }

  /** Shares of the scores make a row over evidence. */
  lemma SharesAreEvidence(ns: seq<NodeId>, delivered: map<Edge, real>, drops: map<Edge, real>, s: NodeId, row: Vec)
    requires Sum(ns, Scores(delivered, drops, s)) > 0.0
    requires forall t :: t in ns ==> row(t) == Score(delivered, drops, s, t) / Sum(ns, Scores(delivered, drops, s))
    ensures EvidenceRow(ns, delivered, drops, s, row)
  {
    hide Sum, Score, Earns, InRatio, Count;
    var f := Scores(delivered, drops, s);
    var total := Sum(ns, f);
    SomeEarned(ns, delivered, drops, s);
    forall t ensures f(t) >= 0.0 && (f(t) > 0.0 <==> Earns(delivered, drops, s, t)) {
      ScoreEarned(delivered, drops, s, t);
    }
    Normalized(ns, f, total, row);
    forall t | t in ns ensures row(t) > 0.0 <==> Earns(delivered, drops, s, t) {
      SharePositive(f(t), total);
    }
    forall t, u | t in ns && u in ns && Earns(delivered, drops, s, t) && Earns(delivered, drops, s, u)
      ensures InRatio(row(t), Count(delivered, (s, t)) - Count(drops, (s, t)),
                      row(u), Count(delivered, (s, u)) - Count(drops, (s, u)))
    {
      ScoreEarned(delivered, drops, s, t);
      ScoreEarned(delivered, drops, s, u);
      SharesInRatio(f(t), f(u), total);
    }
  }

  lemma SharesInRatio(x: real, y: real, total: real)
    requires total > 0.0
    ensures InRatio(x / total, x, y / total, y)
  {
    assert x / total * y == x * y / total == y / total * x;
  }

  // ---- one more outcome --------------------------------------------------------------

  /** The share of t in f, or what it falls back to when there is nothing to share. */
  function Share(ns: seq<NodeId>, f: Vec, fallback: Vec, t: NodeId): real {
    if Sum(ns, f) > 0.0 then f(t) / Sum(ns, f) else fallback(t)
  }

  /** Changing one entry of a list without repetition changes the sum by as much. */
  lemma {:induction false} SumChange(ns: seq<NodeId>, f: Vec, g: Vec, t: NodeId)
    requires Distinct(ns) && t in ns && forall u :: u in ns && u != t ==> g(u) == f(u)
    ensures Sum(ns, g) == Sum(ns, f) + g(t) - f(t)
  {
    var init, z := ns[..|ns| - 1], ns[|ns| - 1];
    DistinctLast(ns);
    assert z in ns && (t in ns ==> t in init || t == z);
    if t == z {
      SumCongruent(init, g, f);
    } else {
      SumChange(init, f, g, t);
    }
  }

  /** A node whose entry grows has no smaller share afterwards, and no other node a larger one. */
  lemma ShareRises(ns: seq<NodeId>, f: Vec, g: Vec, fallback: Vec, t: NodeId, u: NodeId)
    requires Distinct(ns) && t in ns && u in ns && f(t) <= g(t)
    requires forall n :: n in ns ==> f(n) >= 0.0 && 0.0 <= fallback(n) <= 1.0
    requires forall n :: n in ns && n != t ==> g(n) == f(n)
    ensures if u == t then Share(ns, f, fallback, t) <= Share(ns, g, fallback, t)
      else Share(ns, g, fallback, u) <= Share(ns, f, fallback, u)
  {
    SumChange(ns, f, g, t);
    SumPositive(ns, f);
    TermBelowSum(ns, f, t);
    var a, b := Sum(ns, f), Sum(ns, g);
    if b > 0.0 {
      if a > 0.0 {
        if u == t { LargerPart(f(t), g(t), a); } else { SmallerPart(f(u), a, b); }
      } else {
        SumPositive(ns, g);
        assert f(u) == 0.0;
        WholePart(g(t), b);
      }
    }
  }

  lemma LargerPart(x: real, y: real, total: real)
    requires 0.0 <= x <= total && x <= y && total > 0.0
    ensures x / total <= y / (total + y - x)
  {
    var d := y - x;
    assert x * (total + d) <= (x + d) * total by {
      ScaledLeq(d, x, total);
    }
    CrossMultiply(x, total, y, total + d);
  }

  lemma SmallerPart(x: real, a: real, b: real)
    requires x >= 0.0 && 0.0 < a <= b
    ensures x / b <= x / a
  {
    CrossMultiply(x, b, x, a);
  }

  lemma WholePart(x: real, total: real)
    requires total > 0.0
    ensures x == total ==> x / total == 1.0
    ensures 0.0 / total == 0.0
  {
  }

  /** Evidence that differs for one peer only, and there in its favour. */
  ghost predicate Favours(delivered: map<Edge, real>, drops: map<Edge, real>, delivered': map<Edge, real>,
      drops': map<Edge, real>, s: NodeId, t: NodeId)
  {
    && Count(delivered, (s, t)) <= Count(delivered', (s, t)) && Count(drops', (s, t)) <= Count(drops, (s, t))
    && forall u :: u != t ==>
         Count(delivered', (s, u)) == Count(delivered, (s, u)) && Count(drops', (s, u)) == Count(drops, (s, u))
  }

  lemma ScoresFavour(delivered: map<Edge, real>, drops: map<Edge, real>, delivered': map<Edge, real>,
      drops': map<Edge, real>, s: NodeId, t: NodeId)
    requires Favours(delivered, drops, delivered', drops', s, t)
    ensures Score(delivered, drops, s, t) <= Score(delivered', drops', s, t)
    ensures forall u :: u != t ==> Score(delivered', drops', s, u) == Score(delivered, drops, s, u)
    ensures forall u :: Score(delivered, drops, s, u) >= 0.0
  {
  }

  /** One more delivery is in favour of a peer, and so is one drop less. */
  lemma OutcomeFavours(delivered: map<Edge, real>, drops: map<Edge, real>, s: NodeId, t: NodeId)
    ensures Favours(delivered, drops, Incremented(delivered, (s, t)), drops, s, t)
    ensures Favours(delivered, Incremented(drops, (s, t)), delivered, drops, s, t)
  {
  }
}
