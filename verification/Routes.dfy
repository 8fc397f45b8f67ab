/** The hop-by-hop evaluation loop of aegis_router/sim.py over the shortest-path router. */
module Routes {
  import opened Network
  import opened HopDistance
  import opened PathSearch
  import opened Graph

  datatype RouteResult = RouteResult(delivered: bool, hops: int, latency: real, lossRisk: real, touchedSybil: bool)

  function Metrics(adj: Adjacency, a: NodeId, b: NodeId): LinkMetrics {
    if b in Neighbors(adj, a) then adj[a][b] else LinkMetrics(0.0, 0.0, 0.0, 0.0)
  }

  /** Total latency along a route. */
  function RouteLatency(adj: Adjacency, route: seq<NodeId>): real {
    if |route| < 2 then 0.0 else
      RouteLatency(adj, route[..|route| - 1]) + Metrics(adj, route[|route| - 2], route[|route| - 1]).latency
  }

  /** The chance of two independent things. */
  function Both(x: real, y: real): real { x * y }

  /** Probability that every link of the route holds. */
  function RouteSurvival(adj: Adjacency, route: seq<NodeId>): real {
    if |route| < 2 then 1.0 else
      Both(RouteSurvival(adj, route[..|route| - 1]), 1.0 - Metrics(adj, route[|route| - 2], route[|route| - 1]).loss)
  }

  function Capped(x: real): real { if x < 1.0 then x else 1.0 }

  /** The route so far: each node on it is exactly as far from dst as the hops that remain. */
  ghost predicate Descending(adj: Adjacency, off: set<NodeId>, route: seq<NodeId>, dst: NodeId, d: nat) {
    |route| <= d + 1 && forall i :: 0 <= i < |route| ==> IsDist(adj, off, route[i], dst, d - i)
  }

  lemma NoRepeat(adj: Adjacency, off: set<NodeId>, route: seq<NodeId>, dst: NodeId, d: nat, i: nat, j: nat)
    requires Descending(adj, off, route, dst, d) && i < j < |route|
    ensures route[i] != route[j]
  {
  }

  /** The next hop of the shortest-path router takes the route one hop nearer. */
  lemma StepNearer(adj: Adjacency, off: set<NodeId>, route: seq<NodeId>, dst: NodeId, d: nat, e: nat, nxt: NodeId)
    requires Descending(adj, off, route, dst, d) && |route| >= 1 && IsPath(adj, off, route)
    requires IsFirstHop(adj, off, route[|route| - 1], dst, e, nxt)
    ensures Descending(adj, off, route + [nxt], dst, d) && IsPath(adj, off, route + [nxt])
  {
  }

  /** Loop state: the totals are those of the route walked so far. */
  ghost predicate Walked(adj: Adjacency, off: set<NodeId>, sybils: set<NodeId>, route: seq<NodeId>, latency: real,
      loss: real, touched: bool)
  {
    && IsPath(adj, off, route)
    && latency == RouteLatency(adj, route) && loss == 1.0 - RouteSurvival(adj, route)
    && (touched <==> exists n :: n in route && n in sybils)
  }

  lemma WalkStarts(adj: Adjacency, off: set<NodeId>, sybils: set<NodeId>, src: NodeId)
    ensures Walked(adj, off, sybils, [src], 0.0, 0.0, src in sybils)
  {
  }

  lemma WalkOn(adj: Adjacency, off: set<NodeId>, sybils: set<NodeId>, route: seq<NodeId>, latency: real, loss: real,
      touched: bool, nxt: NodeId, m: LinkMetrics)
    requires Walked(adj, off, sybils, route, latency, loss, touched)
    requires nxt in ReachableNeighbors(adj, off, route[|route| - 1]) && m == Metrics(adj, route[|route| - 1], nxt)
    ensures Walked(adj, off, sybils, route + [nxt], latency + m.latency, 1.0 - (1.0 - loss) * (1.0 - m.loss),
      touched || nxt in sybils)
  {
  }

  /** The verdict a caller gets, in terms of the true distance from src to dst. */
  ghost predicate HopVerdict(adj: Adjacency, off: set<NodeId>, src: NodeId, dst: NodeId, maxHops: int, r: RouteResult) {
    && (forall d: nat :: IsDist(adj, off, src, dst, d) ==>
          if d < maxHops then r.delivered && r.hops == d else !r.delivered && r.hops == maxHops)
    && (!Joined(adj, off, src, dst) ==> !r.delivered && r.hops == if maxHops > 0 then 0 else maxHops)
  }

  /** The risk reported for the route that was walked. */
  ghost predicate RiskVerdict(adj: Adjacency, maxHops: int, r: RouteResult, route: seq<NodeId>) {
    r.lossRisk == if r.delivered then 1.0 - RouteSurvival(adj, route)
                  else if r.hops < maxHops then 1.0 else Capped(1.2 - RouteSurvival(adj, route))
  }

  ghost predicate Verdict(adj: Adjacency, off: set<NodeId>, src: NodeId, dst: NodeId, maxHops: int, r: RouteResult,
      route: seq<NodeId>)
  {
    && |route| >= 1 && route[0] == src && |route| - 1 == (if r.hops > 0 then r.hops else 0)
    && (r.delivered ==> route[|route| - 1] == dst)
    && HopVerdict(adj, off, src, dst, maxHops, r) && RiskVerdict(adj, maxHops, r, route)
  }

  /** The distance the loop walks down, when there is one. */
  ghost predicate OnCourse(adj: Adjacency, off: set<NodeId>, route: seq<NodeId>, dst: NodeId, dist: Option<nat>) {
    if dist.None? then |route| == 1 && !Joined(adj, off, route[0], dst)
    else |route| >= 1 && Descending(adj, off, route, dst, dist.value)
  }

  lemma Course(adj: Adjacency, off: set<NodeId>, src: NodeId, dst: NodeId) returns (dist: Option<nat>)
    ensures OnCourse(adj, off, [src], dst, dist)
  {
    if Joined(adj, off, src, dst) {
      var n: nat :| Reaches(adj, off, src, dst, n);
      var d := DistExists(adj, off, src, dst, n);
      dist := Some(d);
    } else {
      dist := None;
    }
  }

  lemma Arrived(adj: Adjacency, off: set<NodeId>, route: seq<NodeId>, dst: NodeId, dist: Option<nat>)
    requires OnCourse(adj, off, route, dst, dist) && route[|route| - 1] == dst
    ensures dist == Some(|route| - 1) && IsDist(adj, off, route[0], dst, |route| - 1)
  {
    StayPut(adj, off, dst);
    if dist.Some? {
      assert IsDist(adj, off, route[|route| - 1], dst, dist.value - (|route| - 1));
      DistUnique(adj, off, dst, dst, 0, dist.value - (|route| - 1));
    }
  }

  lemma FreshNode(adj: Adjacency, off: set<NodeId>, route: seq<NodeId>, dst: NodeId, dist: Option<nat>,
      seen: set<NodeId>)
    requires OnCourse(adj, off, route, dst, dist)
    requires forall n :: n in seen ==> n in route[..|route| - 1]
    ensures route[|route| - 1] !in seen
  {
  }

  lemma KeepCourse(adj: Adjacency, off: set<NodeId>, route: seq<NodeId>, dst: NodeId, dist: Option<nat>, nxt: NodeId)
    requires OnCourse(adj, off, route, dst, dist) && IsPath(adj, off, route)
    requires ShortestAnswer(adj, off, route[|route| - 1], dst, Some(nxt))
    ensures OnCourse(adj, off, route + [nxt], dst, dist)
    ensures nxt in ReachableNeighbors(adj, off, route[|route| - 1])
  {
  }

  /** Leaving the loop: delivered, stuck at the source, or out of hops. */
  lemma Judge(adj: Adjacency, off: set<NodeId>, src: NodeId, dst: NodeId, maxHops: int, dist: Option<nat>,
      r: RouteResult, route: seq<NodeId>)
    requires OnCourse(adj, off, route, dst, dist) && route[0] == src
    requires |route| - 1 == (if r.hops > 0 then r.hops else 0)
    requires r.hops < maxHops ==> r.hops >= 0
    requires r.delivered ==>
      route[|route| - 1] == dst && r.hops < maxHops && r.lossRisk == 1.0 - RouteSurvival(adj, route)
    requires !r.delivered ==> if r.hops < maxHops then !Joined(adj, off, route[|route| - 1], dst) && r.lossRisk == 1.0
                              else r.hops == maxHops && r.lossRisk == Capped(1.2 - RouteSurvival(adj, route))
    ensures Verdict(adj, off, src, dst, maxHops, r, route)
  {
    if r.delivered {
      Arrived(adj, off, route, dst, dist);
    }
    if dist.Some? {
      assert IsDist(adj, off, route[|route| - 1], dst, dist.value - (|route| - 1));
      assert IsDist(adj, off, route[0], dst, dist.value);
    }
  }

  /** Delivers in exactly the shortest number of hops when that is below max_hops, and only then. */
  method RouteShortestPath(graph: P2PGraph, src: NodeId, dst: NodeId, maxHops: int)
    returns (r: RouteResult, ghost route: seq<NodeId>)
    requires graph.Valid() && (src == dst || src in graph.adj)
    ensures HopVerdict(graph.adj, graph.offlineNodes, src, dst, maxHops, r)
    ensures Verdict(graph.adj, graph.offlineNodes, src, dst, maxHops, r, route)
    ensures IsPath(graph.adj, graph.offlineNodes, route) && r.latency == RouteLatency(graph.adj, route)
    ensures r.touchedSybil <==> exists n :: n in route && n in graph.sybilNodes
  {
    hide HopVerdict, RiskVerdict, OnCourse, ShortestAnswer, Descending, IsPath, Undirected, RouteLatency, RouteSurvival;
    var node, latency, loss, touched := src, 0.0, 0.0, src in graph.sybilNodes;
    var seen: set<NodeId> := {};
    ghost var adj, off := graph.adj, graph.offlineNodes;
    ghost var dist := Course(adj, off, src, dst);
    route := [src];
    WalkStarts(adj, off, graph.sybilNodes, src);
    var hop := 0;
    while hop < maxHops
      invariant hop == 0 || hop <= maxHops
      invariant |route| == hop + 1 && route[0] == src && route[hop] == node && (node == dst || node in adj)
      invariant OnCourse(adj, off, route, dst, dist)
      invariant Walked(adj, off, graph.sybilNodes, route, latency, loss, touched)
      invariant forall n :: n in seen ==> n in route[..hop]
    {
      if node == dst {
        r := RouteResult(true, hop, latency, loss, touched);
        Judge(adj, off, src, dst, maxHops, dist, r, route);
        return;
      }
      FreshNode(adj, off, route, dst, dist, seen);
      if node in seen {
        r := RouteResult(false, hop, latency, Capped(loss + 0.2), touched);
        return;
      }
      seen := seen + {node};
      var nxt := graph.ShortestPathNextHop(node, dst);
      if nxt.None? {
        r := RouteResult(false, hop, latency, 1.0, touched);
        Judge(adj, off, src, dst, maxHops, dist, r, route);
        return;
      }
      KeepCourse(adj, off, route, dst, dist, nxt.value);
      NeighborIsNode(adj, node, nxt.value);
      var m := graph.adj[node][nxt.value];
      WalkOn(adj, off, graph.sybilNodes, route, latency, loss, touched, nxt.value, m);
      latency, loss := latency + m.latency, 1.0 - (1.0 - loss) * (1.0 - m.loss);
      touched := touched || nxt.value in graph.sybilNodes;
      node, route := nxt.value, route + [nxt.value];
      hop := hop + 1;
    }
    r := RouteResult(false, maxHops, latency, Capped(loss + 0.2), touched);
    Judge(adj, off, src, dst, maxHops, dist, r, route);
  }
}
