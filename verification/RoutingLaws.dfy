/** What routing answers and totals come to, in terms of link metrics, trust and progress. */
module RoutingLaws {
  import opened Network
  import opened PathSearch
  import opened Landmarks
  import opened Routes
  import opened Selection
  import opened Packets

  // ---- link quality -----------------------------------------------------------------------

  /** A link that is at least as good by every metric. */
  predicate NoWorseLink(m: LinkMetrics, m': LinkMetrics) {
    m.latency <= m'.latency && m.loss <= m'.loss && m.stability >= m'.stability && m.bandwidth >= m'.bandwidth
  }

  /** The quality weight of a link is positive. A better link never weighs more, and weighs less if it is better by any
      metric and not both are at the floor. */
  lemma QualityFollowsMetrics(adj: Adjacency, a: NodeId, b: NodeId, x: NodeId, y: NodeId)
    requires b in Neighbors(adj, a) && y in Neighbors(adj, x) && NoWorseLink(adj[a][b], adj[x][y])
    ensures 0.001 <= Weight(QualityWeights(adj), a, b) <= Weight(QualityWeights(adj), x, y)
    ensures adj[a][b] != adj[x][y] && Weight(QualityWeights(adj), x, y) > 0.001 ==>
      Weight(QualityWeights(adj), a, b) < Weight(QualityWeights(adj), x, y)
  {
    assert adj[a][b].Cost() <= adj[x][y].Cost();
  }

  /** The cost of a path is that of its parts, and that of a single link is its weight. */
  lemma {:induction false} PathCostParts(w: Weights, p: seq<NodeId>, i: nat)
    requires i < |p|
    ensures PathCost(w, p) == PathCost(w, p[..i + 1]) + PathCost(w, p[i..])
    ensures |p| == 2 ==> PathCost(w, p) == Weight(w, p[0], p[1])
  {
    if i == |p| - 1 {
      assert p[..i + 1] == p;
    } else {
      var init := p[..|p| - 1];
      PathCostParts(w, init, i);
      assert init[..i + 1] == p[..i + 1];
      assert p[i..][..|p[i..]| - 1] == init[i..];
    }
  }

  /** Of two paths the best one is strictly cheaper, or as cheap over a first hop that is not larger. */
  lemma BestIsCheapest(adj: Adjacency, off: set<NodeId>, w: Weights, p: seq<NodeId>, q: seq<NodeId>, src: NodeId,
      dst: NodeId)
    requires Best(adj, off, w, p, src, dst) && PathBetween(adj, off, q, src, dst) && |q| > 1
    ensures PathCost(w, p) <= PathCost(w, q)
    ensures q[1] < p[1] ==> PathCost(w, p) < PathCost(w, q)
  {
    assert PathCost(w, p) < PathCost(w, q) || p[1] <= q[1];
  }

  /** So the first link of the answer never weighs more than any whole path: a detour that is cheaper than a link is
      taken instead of it. */
  lemma FirstLinkAffordable(adj: Adjacency, off: set<NodeId>, w: Weights, p: seq<NodeId>, q: seq<NodeId>, src: NodeId,
      dst: NodeId)
    requires Weighted(adj, w) && Best(adj, off, w, p, src, dst) && PathBetween(adj, off, q, src, dst) && |q| > 1
    ensures Weight(w, src, p[1]) <= PathCost(w, q)
  {
    hide AsGood;
    BestIsCheapest(adj, off, w, p, q, src, dst);
    PathCostParts(w, p, 1);
    PathCostParts(w, p[..2], 1);
    assert IsPath(adj, off, p[1..]);
    CostPositive(adj, off, w, p[1..]);
  }

  // ---- totals of a route ------------------------------------------------------------------

  /** Latencies add up along a route. */
  lemma {:induction false} LatencyParts(adj: Adjacency, route: seq<NodeId>, i: nat)
    requires i < |route|
    ensures RouteLatency(adj, route) == RouteLatency(adj, route[..i + 1]) + RouteLatency(adj, route[i..])
    ensures |route| == 2 && route[1] in Neighbors(adj, route[0]) ==>
      RouteLatency(adj, route) == adj[route[0]][route[1]].latency
  {
    if i == |route| - 1 {
      assert route[..i + 1] == route;
    } else {
      var init := route[..|route| - 1];
      LatencyParts(adj, init, i);
      assert init[..i + 1] == route[..i + 1];
      assert route[i..][..|route[i..]| - 1] == init[i..];
    }
  }

  /** The chances of its links multiply. */
  lemma {:induction false} SurvivalParts(adj: Adjacency, route: seq<NodeId>, i: nat)
    requires i < |route|
    ensures RouteSurvival(adj, route) == Both(RouteSurvival(adj, route[..i + 1]), RouteSurvival(adj, route[i..]))
    ensures |route| == 2 && route[1] in Neighbors(adj, route[0]) ==>
      RouteSurvival(adj, route) == 1.0 - adj[route[0]][route[1]].loss
  {
    hide Metrics, RouteSurvival, Both;
    LastLink(adj, route);
    if i == |route| - 1 {
      assert route[..i + 1] == route;
      LastLink(adj, route[i..]);
      Grouped(RouteSurvival(adj, route), 1.0, 1.0);
    } else {
      var init, rest := route[..|route| - 1], route[i..];
      SurvivalParts(adj, init, i);
      assert init[..i + 1] == route[..i + 1];
      assert rest[..|rest| - 1] == init[i..];
      LastLink(adj, rest);
      Grouped(RouteSurvival(adj, init[..i + 1]), RouteSurvival(adj, init[i..]), Held(adj, route));
    }
  }

  /** The chance of the last link of a route. */
  function Held(adj: Adjacency, route: seq<NodeId>): real
    requires |route| >= 2
  {
    1.0 - Metrics(adj, route[|route| - 2], route[|route| - 1]).loss
  }

  lemma LastLink(adj: Adjacency, route: seq<NodeId>)
    ensures |route| >= 2 ==>
      RouteSurvival(adj, route) == Both(RouteSurvival(adj, route[..|route| - 1]), Held(adj, route))
    ensures |route| < 2 ==> RouteSurvival(adj, route) == 1.0
    ensures RouteSurvival(adj, []) == 1.0
    ensures |route| == 2 ==> RouteSurvival(adj, route) == Held(adj, route)
    ensures |route| >= 2 && route[|route| - 1] in Neighbors(adj, route[|route| - 2]) ==>
      Held(adj, route) == 1.0 - adj[route[|route| - 2]][route[|route| - 1]].loss
  {
  }

  lemma Grouped(x: real, y: real, z: real)
    ensures Both(Both(x, y), z) == Both(x, Both(y, z)) && Both(x, 1.0) == x
  {
  }

  /** Over links whose losses are probabilities a route survives with a probability, and no longer route is likelier
      to. */
  lemma {:induction false} SurvivalFalls(adj: Adjacency, route: seq<NodeId>)
    requires forall a, b :: b in Neighbors(adj, a) ==> 0.0 <= adj[a][b].loss <= 1.0
    ensures 0.0 <= RouteSurvival(adj, route) <= 1.0
    ensures |route| > 0 ==> RouteSurvival(adj, route) <= RouteSurvival(adj, route[..|route| - 1])
  {
    hide RouteSurvival, Both, Held;
    LastLink(adj, route);
    LossKnown(adj, route);
    if |route| >= 2 {
      var init := route[..|route| - 1];
      SurvivalFalls(adj, init);
      Fraction(RouteSurvival(adj, init), Held(adj, route));
    } else {
      assert |route| == 1 ==> route[..|route| - 1] == [];
    }
  }

  lemma LossKnown(adj: Adjacency, route: seq<NodeId>)
    requires forall a, b :: b in Neighbors(adj, a) ==> 0.0 <= adj[a][b].loss <= 1.0
    ensures |route| >= 2 ==> 0.0 <= Held(adj, route) <= 1.0
  {
  }

  lemma Fraction(x: real, k: real)
    requires x >= 0.0 && 0.0 <= k <= 1.0
    ensures 0.0 <= Both(x, k) <= x
  {
  }

  // ---- progress ---------------------------------------------------------------------------

  /** Around a ring the shorter way counts: the distance is symmetric, zero for a node itself only, and at most half. */
  lemma RingShorterWay(a: NodeId, b: NodeId, n: nat)
    requires 0 <= a < n && 0 <= b < n
    ensures RingDistance(a, b, n) == RingDistance(b, a, n) && 0 <= 2 * RingDistance(a, b, n) <= n
    ensures RingDistance(a, b, n) == 0 <==> a == b
    ensures a + 1 == b ==> RingDistance(a, b, n) <= 1
  {
  }

  /** A hop makes progress exactly if it comes nearer to the destination, by landmarks where both ends have them and
      around the ring otherwise; at the destination itself every hop does. */
  lemma ProgressMeansNearer(adj: Adjacency, vec: Option<Vectors>, node: NodeId, nb: NodeId, dst: NodeId)
    ensures var r := ProgressDelta(adj, vec, node, nb, dst);
      var before, after := LandmarkDistance(vec, node, dst), LandmarkDistance(vec, nb, dst);
      && (before.Hops? && after.Hops? ==>
            r.Some? && (r.value > 0.0 <==> before.hops == 0 || after.hops < before.hops)
            && (r.value < 0.0 <==> 0 < before.hops < after.hops))
      && (!before.EmptyMax? && !after.EmptyMax? && (before.Missing? || after.Missing?) && node in adj && nb in adj
          && dst in adj && (forall n :: n in adj ==> 0 <= n < |adj|) ==>
            var n := |adj|;
            r.Some? && (r.value > 0.0 <==> node == dst || RingDistance(nb, dst, n) < RingDistance(node, dst, n))
            && (r.value < 0.0 <==> node != dst && RingDistance(node, dst, n) < RingDistance(nb, dst, n)))
  {
    hide LandmarkDistance, RingDistance;
    if node in adj && dst in adj && forall n :: n in adj ==> 0 <= n < |adj| {
      var n := |adj|;
      RingShorterWay(node, dst, n);
      if node != dst {
        Signed(RingDistance(node, dst, n) - RingDistance(nb, dst, n), RingDistance(node, dst, n));
      }
    }
  }

  lemma Signed(x: int, y: int)
    requires y > 0
    ensures x as real / y as real > 0.0 <==> x > 0
    ensures x as real / y as real < 0.0 <==> x < 0
  {
  }

  // ---- trust and budget -------------------------------------------------------------------

  /** Unless the destination is a live neighbour, the trusted answer is the most trusted preferred neighbour; among
      equals the one that makes most progress, and among those the first. */
  lemma TrustAnswerIsBest(adj: Adjacency, off: set<NodeId>, p: Packet, trust: NodeId -> real, progress: NodeId -> real,
      next: Option<NodeId>, n: NodeId)
    requires TrustAnswer(adj, off, p, trust, progress, next) && p.dst !in ReachableNeighbors(adj, off, p.node)
    requires n in Preferred(adj, off, p)
    ensures next.Some? && trust(n) <= trust(next.value)
    ensures trust(n) == trust(next.value) ==> progress(n) <= progress(next.value)
    ensures trust(n) == trust(next.value) && progress(n) == progress(next.value) ==> next.value <= n
  {
    assert n != next.value ==> Beats(trust, progress, next.value, n);
  }

  /** The destination is always affordable. Elsewhere a larger budget, a less lossy link and a less exposed packet never
      make a hop unaffordable, and a link without loss costs nothing of the budget. */
  lemma AffordableMonotone(adj: Adjacency, p: Packet, budget: real, n: NodeId, adj': Adjacency, p': Packet,
      budget': real, n': NodeId)
    requires n in Neighbors(adj, p.node) && n' in Neighbors(adj', p'.node) && p.lossRisk <= 1.0
    requires 0.0 <= adj'[p'.node][n'].loss <= adj[p.node][n].loss <= 1.0
    requires p'.lossRisk <= p.lossRisk && budget <= budget'
    ensures n == p.dst ==> Affordable(adj, p, budget, n)
    ensures n != p.dst && Affordable(adj, p, budget, n) ==> Affordable(adj', p', budget', n')
    ensures adj[p.node][n].loss == 0.0 && n != p.dst ==> (Affordable(adj, p, budget, n) <==> p.lossRisk <= budget)
    ensures adj[p.node][n].loss == 1.0 && n != p.dst ==> (Affordable(adj, p, budget, n) <==> 1.0 <= budget)
  {
    var x, y := 1.0 - p.lossRisk, 1.0 - adj[p.node][n].loss;
    var x', y' := 1.0 - p'.lossRisk, 1.0 - adj'[p'.node][n'].loss;
    LargerFactors(x, y, x', y');
  }

  lemma LargerFactors(x: real, y: real, x': real, y': real)
    requires 0.0 <= x <= x' && 0.0 <= y <= y'
    ensures x * y <= x' * y'
  {
    assert x' * y' - x * y == (x' - x) * y' + x * (y' - y);
  }
}
