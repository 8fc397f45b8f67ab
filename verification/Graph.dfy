/** The mutable P2PGraph of aegis_router/graph.py and the generator of random topologies. */
module Graph {
  import opened Network
  import opened HopDistance
  import opened PathSearch
  import opened Landmarks
  import opened Sequences

  class P2PGraph {
    var adj: Adjacency
    var sybilNodes: set<NodeId>
    var offlineNodes: set<NodeId>
    var landmarkDist: Option<Vectors>

    ghost predicate Valid()
      reads this
    {
      Undirected(adj)
    }

    constructor ()
      ensures Valid() && adj == map[] && sybilNodes == {} && offlineNodes == {} && landmarkDist == None
    {
      adj, sybilNodes, offlineNodes, landmarkDist := map[], {}, {}, None;
    }

    method AddNode(node: NodeId, sybil: bool)
      modifies this`adj, this`sybilNodes
      ensures adj == WithNode(old(adj), node)
      ensures sybilNodes == old(sybilNodes) + (if sybil then {node} else {})
      ensures old(Valid()) ==> Valid()
    {
      if node !in adj {
        adj := adj[node := map[]];
      }
      if sybil {
        sybilNodes := sybilNodes + {node};
      }
    }

    method AddEdge(a: NodeId, b: NodeId, metrics: LinkMetrics)
      modifies this`adj, this`sybilNodes
      ensures adj == WithEdge(old(adj), a, b, metrics) && sybilNodes == old(sybilNodes)
      ensures old(Valid()) ==> Valid()
    {
      AddNode(a, false);
      AddNode(b, false);
      adj := adj[a := adj[a][b := metrics]];
      adj := adj[b := adj[b][a := metrics]];
      assert adj == WithEdge(old(adj), a, b, metrics);
      if old(Valid()) {
        WithEdgeUndirected(old(adj), a, b, metrics);
      }
    }

    /** Classic shortest path by hop count over nodes that are not offline. */
    method ShortestPathNextHop(src: NodeId, dst: NodeId) returns (next: Option<NodeId>)
      requires Valid() && (src == dst || src in adj)
      ensures src == dst ==> next == Some(dst)
      ensures src != dst ==> ShortestAnswer(adj, offlineNodes, src, dst, next)
    {
      if src == dst {
        return Some(dst);
      }
      next := SearchFirstHop(adj, offlineNodes, HopWeights(adj), src, dst);
      if next.Some? {
        ghost var p :| Best(adj, offlineNodes, HopWeights(adj), p, src, dst) && p[1] == next.value;
        BestIsNearest(adj, offlineNodes, p, src, dst);
      }
    }

    /** First hop of the path that is least by (total max(0.001, cost), first hop). */
    method QualityPathNextHop(src: NodeId, dst: NodeId) returns (next: Option<NodeId>)
      requires Valid() && (src == dst || src in adj)
      ensures src == dst ==> next == Some(dst)
      ensures src != dst ==> (next.None? <==> forall p :: !PathBetween(adj, offlineNodes, p, src, dst))
      ensures src != dst && next.Some? ==>
        exists p :: Best(adj, offlineNodes, QualityWeights(adj), p, src, dst) && p[1] == next.value
    {
      if src == dst {
        return Some(dst);
      }
      next := SearchFirstHop(adj, offlineNodes, QualityWeights(adj), src, dst);
    }

    /** compute_landmarks, with the sampled landmarks given. */
    method ComputeLandmarks(marks: seq<NodeId>)
      requires Valid() && forall i :: 0 <= i < |marks| ==> marks[i] in adj
      modifies this`landmarkDist
      ensures Valid()
      ensures if adj == map[] then landmarkDist == None
              else landmarkDist.Some? && AreVectors(adj, marks, landmarkDist.value)
    {
      if adj == map[] {
        landmarkDist := None;
        return;
      }
      var vec := LandmarkVectors(adj, marks);
      landmarkDist := Some(vec);
    }
  }

  // ---- random topologies -------------------------------------------------------------------

  /** Nodes 0 to n - 1, and nobody linked to itself from two nodes on. */
  ghost predicate OnNodes(adj: Adjacency, n: nat) {
    (forall x :: x in adj <==> 0 <= x < n) && (n >= 2 ==> Irreflexive(adj))
  }

  function RingNeighbor(i: nat, n: nat): (j: nat)
    requires i < n
    ensures j < n && (n >= 2 ==> j != i) && (i + 1 < n ==> j == i + 1)
  {
    (i + 1) % n
  }

  /** Link count at which extra links stop being added. */
  function TargetEdges(nodes: nat, degree: int): int {
    nodes * degree / 2
  }

  /** The first k links of the ring are there. */
  ghost predicate Ringed(adj: Adjacency, n: nat, k: nat) {
    forall i :: 0 <= i < k && i < n ==> RingNeighbor(i, n) in Neighbors(adj, i)
  }

  /** An edge between nodes adds nobody and removes nothing. */
  lemma EdgeKeeps(adj: Adjacency, n: nat, k: nat, a: NodeId, b: NodeId, m: LinkMetrics)
    requires Undirected(adj) && OnNodes(adj, n) && Ringed(adj, n, k) && 0 <= a < n && 0 <= b < n && (n >= 2 ==> a != b)
    ensures Undirected(WithEdge(adj, a, b, m)) && OnNodes(WithEdge(adj, a, b, m), n)
    ensures Ringed(WithEdge(adj, a, b, m), n, k)
    ensures b in Neighbors(WithEdge(adj, a, b, m), a)
  {
    WithEdgeUndirected(adj, a, b, m);
    WithEdgeLinks(adj, a, b, m);
  }

  ghost predicate SameSet(a: set<NodeId>, b: set<NodeId>) {
    forall n :: n in a <==> n in b
  }

  lemma NoLinks(adj: Adjacency, n: nat)
    requires (forall x :: x in adj <==> 0 <= x < n) && forall x :: x in adj ==> adj[x] == map[]
    ensures OnNodes(adj, n) && Ringed(adj, n, 0)
  {
  }

  lemma RingGrows(adj: Adjacency, n: nat, k: nat)
    requires Ringed(adj, n, k) && k < n && RingNeighbor(k, n) in Neighbors(adj, k)
    ensures Ringed(adj, n, k + 1)
  {
  }

  lemma NodeIn(adj: Adjacency, n: nat, a: NodeId)
    requires OnNodes(adj, n)
    ensures a in adj <==> 0 <= a < n
  {
  }

  lemma RingNext(adj: Adjacency, n: nat, i: nat)
    requires Ringed(adj, n, n) && 0 < i < n
    ensures i in ReachableNeighbors(adj, {}, i - 1)
  {
    assert RingNeighbor(i - 1, n) in Neighbors(adj, i - 1);
  }

  /** A single node is its own ring. */
  lemma OneNode(adj: Adjacency)
    requires Undirected(adj) && OnNodes(adj, 1) && Ringed(adj, 1, 1)
    ensures DegreeSum(adj, 1) == 1
  {
    assert RingNeighbor(0, 1) in Neighbors(adj, 0);
    forall y | y in Neighbors(adj, 0) ensures y == 0 {
      assert y in adj[0];
    }
    Singleton(Neighbors(adj, 0), 0);
    assert DegreeSum(adj, 0) == 0;
  }

  /** With fewer than two nodes the links fall short of the target exactly for one node and degree two or more. */
  lemma FewNodes(adj: Adjacency, nodes: nat, degree: int)
    requires Undirected(adj) && OnNodes(adj, nodes) && Ringed(adj, nodes, nodes)
    ensures nodes < 2 ==> (DegreeSum(adj, nodes) / 2 < TargetEdges(nodes, degree) <==> nodes == 1 && degree >= 2)
  {
    hide Undirected, Ringed, OnNodes, DegreeSum, TargetEdges;
    SmallTarget(degree);
    assert DegreeSum(adj, 0) == 0 by { NoDegrees(adj); }
    if nodes == 1 {
      OneNode(adj);
    }
  }

  lemma SmallTarget(degree: int)
    ensures TargetEdges(0, degree) == 0 && TargetEdges(1, degree) == degree / 2
  {
  }

  lemma NoDegrees(adj: Adjacency)
    ensures DegreeSum(adj, 0) == 0
  {
  }

  lemma {:induction false} RingReaches(adj: Adjacency, n: nat, i: nat)
    requires OnNodes(adj, n) && Ringed(adj, n, n) && i < n
    ensures Reaches(adj, {}, 0, i, i)
  {
    if i == 0 {
      StayPut(adj, {}, 0);
    } else {
      RingReaches(adj, n, i - 1);
      RingNext(adj, n, i);
      AppendStep(adj, {}, 0, i - 1, i, i - 1);
    }
  }

  /** The ring connects everybody. */
  lemma RingConnects(adj: Adjacency, n: nat)
    requires Undirected(adj) && OnNodes(adj, n) && Ringed(adj, n, n)
    ensures Connected(adj)
  {
    forall a, b | a in adj && b in adj ensures Joined(adj, {}, a, b) {
      RingReaches(adj, n, a);
      RingReaches(adj, n, b);
      Reverse(adj, 0, a, a);
      Chain(adj, {}, a, 0, b, a, b);
    }
  }

  /** Number of directed links of the first n nodes. */
  function DegreeSum(adj: Adjacency, n: nat): nat {
    if n == 0 then 0 else DegreeSum(adj, n - 1) + |Neighbors(adj, n - 1)|
  }

  /** Adds the nodes, each honest or Sybil. */
  method AddNodes(g: P2PGraph, nodes: nat, sybils: set<NodeId>)
    requires g.Valid() && g.adj == map[] && g.sybilNodes == {} && forall n :: n in sybils ==> 0 <= n < nodes
    modifies g`adj, g`sybilNodes
    ensures g.Valid() && OnNodes(g.adj, nodes) && Ringed(g.adj, nodes, 0) && SameSet(g.sybilNodes, sybils)
  {
    hide Undirected, OnNodes, Ringed;
    for n := 0 to nodes
      invariant g.Valid() && (forall x :: x in g.adj <==> 0 <= x < n) && forall x :: x in g.adj ==> g.adj[x] == map[]
      invariant forall x :: x in g.sybilNodes <==> x in sybils && x < n
    {
      g.AddNode(n, n in sybils);
    }
    NoLinks(g.adj, nodes);
  }

  /** Links node k to the next one of the ring. */
  method AddRingLink(g: P2PGraph, nodes: nat, k: nat, m: LinkMetrics)
    requires g.Valid() && OnNodes(g.adj, nodes) && Ringed(g.adj, nodes, k) && k < nodes
    modifies g`adj, g`sybilNodes
    ensures g.Valid() && OnNodes(g.adj, nodes) && Ringed(g.adj, nodes, k + 1) && g.sybilNodes == old(g.sybilNodes)
  {
    hide Undirected, OnNodes, Ringed, WithEdge, RingNeighbor;
    var next := RingNeighbor(k, nodes);
    EdgeKeeps(g.adj, nodes, k, k, next, m);
    g.AddEdge(k, next, m);
    RingGrows(g.adj, nodes, k);
  }

  /** Links every node to the next one. */
  method AddRing(g: P2PGraph, nodes: nat, metrics: nat -> LinkMetrics)
    requires g.Valid() && OnNodes(g.adj, nodes) && Ringed(g.adj, nodes, 0)
    modifies g`adj, g`sybilNodes
    ensures g.Valid() && OnNodes(g.adj, nodes) && Ringed(g.adj, nodes, nodes) && g.sybilNodes == old(g.sybilNodes)
  {
    hide Undirected, OnNodes, Ringed;
    for n := 0 to nodes
      invariant g.Valid() && OnNodes(g.adj, nodes) && Ringed(g.adj, nodes, n) && g.sybilNodes == old(g.sybilNodes)
    {
      AddRingLink(g, nodes, n, metrics(n));
    }
  }

  /** Adds links between drawn nodes until there are enough or the attempts are used up. */
  method AddLinks(g: P2PGraph, nodes: nat, target: int, pairs: nat -> (NodeId, NodeId), metrics: nat -> LinkMetrics)
    returns (attempts: nat)
    requires g.Valid() && OnNodes(g.adj, nodes) && Ringed(g.adj, nodes, nodes)
    requires nodes < 2 ==> DegreeSum(g.adj, nodes) / 2 >= target
    requires nodes >= 2 ==> forall i: nat ::
      0 <= pairs(i).0 < nodes && 0 <= pairs(i).1 < nodes && pairs(i).0 != pairs(i).1
    modifies g`adj, g`sybilNodes
    ensures g.Valid() && OnNodes(g.adj, nodes) && Ringed(g.adj, nodes, nodes) && g.sybilNodes == old(g.sybilNodes)
    ensures DegreeSum(g.adj, nodes) / 2 >= target || attempts == target * 20
    ensures attempts == 0 || attempts <= target * 20
  {
    hide Undirected, OnNodes, Ringed, WithEdge, DegreeSum;
    attempts := 0;
    var drawn := nodes;
    while DegreeSum(g.adj, nodes) / 2 < target && attempts < target * 20
      invariant g.Valid() && OnNodes(g.adj, nodes) && Ringed(g.adj, nodes, nodes) && g.sybilNodes == old(g.sybilNodes)
      invariant attempts == 0 || attempts <= target * 20
      invariant nodes < 2 ==> DegreeSum(g.adj, nodes) / 2 >= target
      decreases target * 20 - attempts
    {
      var (a, b) := pairs(attempts);
      NodeIn(g.adj, nodes, a);
      if b !in g.adj[a] {
        EdgeKeeps(g.adj, nodes, nodes, a, b, metrics(drawn));
        g.AddEdge(a, b, metrics(drawn));
        drawn := drawn + 1;
      }
      attempts := attempts + 1;
    }
  }

  /** generate_random_graph, with the sampled Sybil nodes, extra links, metrics and landmarks given. It
      raises exactly when it would have to draw two distinct nodes out of one. */
  method GenerateRandomGraph(nodes: nat, degree: int, sybils: set<NodeId>, pairs: nat -> (NodeId, NodeId),
      metrics: nat -> LinkMetrics, marks: seq<NodeId>) returns (g: P2PGraph, raised: bool, attempts: nat)
    requires nodes >= 2 ==> forall i: nat ::
      0 <= pairs(i).0 < nodes && 0 <= pairs(i).1 < nodes && pairs(i).0 != pairs(i).1
    requires forall i :: 0 <= i < |marks| ==> 0 <= marks[i] < nodes
    requires forall n :: n in sybils ==> 0 <= n < nodes
    ensures raised <==> nodes == 1 && degree >= 2
    ensures fresh(g) && g.Valid() && g.offlineNodes == {} && SameSet(g.sybilNodes, sybils)
    ensures OnNodes(g.adj, nodes) && Connected(g.adj)
    ensures !raised ==>
      DegreeSum(g.adj, nodes) / 2 >= TargetEdges(nodes, degree) || attempts == TargetEdges(nodes, degree) * 20
    ensures attempts == 0 || attempts <= TargetEdges(nodes, degree) * 20
    ensures !raised && |marks| > 0 ==> g.landmarkDist.Some? && AreVectors(g.adj, marks, g.landmarkDist.value)
  {
    hide Undirected, Connected, DegreeSum, Ringed, OnNodes, TargetEdges, SameSet, AreVectors;
    g := new P2PGraph();
    attempts, raised := 0, false;
    AddNodes(g, nodes, sybils);
    AddRing(g, nodes, metrics);
    var target := TargetEdges(nodes, degree);
    FewNodes(g.adj, nodes, degree);
    if nodes < 2 && DegreeSum(g.adj, nodes) / 2 < target {
      RingConnects(g.adj, nodes);
      raised := true;
      return;
    }
    attempts := AddLinks(g, nodes, target, pairs, metrics);
    RingConnects(g.adj, nodes);
    if |marks| > 0 {
      forall i | 0 <= i < |marks| ensures marks[i] in g.adj { NodeIn(g.adj, nodes, marks[i]); }
      assert marks[0] in g.adj;
      g.ComputeLandmarks(marks);
    }
  }
}
