/** Hop distance between nodes, and the breadth-first search that computes it (aegis_router/graph.py). */
module HopDistance {
  import opened Network
  import opened Sequences

  ghost predicate Reaches(adj: Adjacency, off: set<NodeId>, a: NodeId, b: NodeId, n: nat) {
    exists p :: PathBetween(adj, off, p, a, b) && |p| == n + 1
  }

  /** d is the least number of hops from a to b over nodes that are not offline. */
  ghost predicate IsDist(adj: Adjacency, off: set<NodeId>, a: NodeId, b: NodeId, d: nat) {
    Reaches(adj, off, a, b, d) && forall n: nat :: n < d ==> !Reaches(adj, off, a, b, n)
  }

  ghost predicate Joined(adj: Adjacency, off: set<NodeId>, a: NodeId, b: NodeId) {
    exists n: nat :: Reaches(adj, off, a, b, n)
  }

  ghost predicate Connected(adj: Adjacency) {
    forall a, b :: a in adj && b in adj ==> Joined(adj, {}, a, b)
  }

  lemma DistUnique(adj: Adjacency, off: set<NodeId>, a: NodeId, b: NodeId, d: nat, d': nat)
    requires IsDist(adj, off, a, b, d) && IsDist(adj, off, a, b, d')
    ensures d == d'
  {
  }

  lemma {:induction false} DistExists(adj: Adjacency, off: set<NodeId>, a: NodeId, b: NodeId, n: nat) returns (d: nat)
    requires Reaches(adj, off, a, b, n)
    ensures d <= n && IsDist(adj, off, a, b, d)
  {
    if m: nat :| m < n && Reaches(adj, off, a, b, m) {
      d := DistExists(adj, off, a, b, m);
    } else {
      d := n;
    }
  }

  lemma StayPut(adj: Adjacency, off: set<NodeId>, a: NodeId)
    ensures Reaches(adj, off, a, a, 0) && IsDist(adj, off, a, a, 0)
  {
    assert PathBetween(adj, off, [a], a, a);
  }

  /** A first step towards b, and the rest of the way. */
  lemma FirstStep(adj: Adjacency, off: set<NodeId>, a: NodeId, b: NodeId, n: nat) returns (h: NodeId)
    requires Reaches(adj, off, a, b, n) && n > 0
    ensures h in ReachableNeighbors(adj, off, a) && Reaches(adj, off, h, b, n - 1)
  {
    var p :| PathBetween(adj, off, p, a, b) && |p| == n + 1;
    h := p[1];
    var t := p[1..];
    forall i | 0 < i < |t| ensures t[i] in ReachableNeighbors(adj, off, t[i - 1]) {
      assert t[i] == p[i + 1];
    }
    assert PathBetween(adj, off, t, h, b);
  }

  lemma Prepended(adj: Adjacency, off: set<NodeId>, a: NodeId, p: seq<NodeId>)
    requires IsPath(adj, off, p) && p[0] in ReachableNeighbors(adj, off, a)
    ensures IsPath(adj, off, [a] + p)
  {
  }

  lemma PrependStep(adj: Adjacency, off: set<NodeId>, a: NodeId, h: NodeId, b: NodeId, n: nat)
    requires h in ReachableNeighbors(adj, off, a) && Reaches(adj, off, h, b, n)
    ensures Reaches(adj, off, a, b, n + 1)
  {
    var p :| PathBetween(adj, off, p, h, b) && |p| == n + 1;
    Prepended(adj, off, a, p);
    assert PathBetween(adj, off, [a] + p, a, b);
  }

  lemma AppendStep(adj: Adjacency, off: set<NodeId>, a: NodeId, h: NodeId, b: NodeId, n: nat)
    requires Reaches(adj, off, a, h, n) && b in ReachableNeighbors(adj, off, h)
    ensures Reaches(adj, off, a, b, n + 1)
  {
    var p :| PathBetween(adj, off, p, a, h) && |p| == n + 1;
    assert PathBetween(adj, off, p + [b], a, b);
  }

  lemma {:induction false} Reverse(adj: Adjacency, a: NodeId, b: NodeId, n: nat)
    requires Undirected(adj) && Reaches(adj, {}, a, b, n)
    ensures Reaches(adj, {}, b, a, n)
    decreases n
  {
    hide IsPath, Undirected, ReachableNeighbors;
    if n == 0 {
      NoSteps(adj, a, b);
    } else {
      var h := FirstStep(adj, {}, a, b, n);
      Reverse(adj, h, b, n - 1);
      LinkBack(adj, a, h);
      AppendStep(adj, {}, b, h, a, n - 1);
    }
  }

  lemma NoSteps(adj: Adjacency, a: NodeId, b: NodeId)
    requires Reaches(adj, {}, a, b, 0)
    ensures a == b && Reaches(adj, {}, b, a, 0)
  {
    StayPut(adj, {}, a);
  }

  lemma LinkBack(adj: Adjacency, a: NodeId, b: NodeId)
    requires Undirected(adj) && b in ReachableNeighbors(adj, {}, a)
    ensures a in ReachableNeighbors(adj, {}, b) && b in adj
  {
    assert b in adj[a];
  }

  lemma {:induction false} Chain(adj: Adjacency, off: set<NodeId>, a: NodeId, b: NodeId, c: NodeId, m: nat, n: nat)
    requires Reaches(adj, off, a, b, m) && Reaches(adj, off, b, c, n)
    ensures Reaches(adj, off, a, c, m + n)
    decreases m
  {
    if m > 0 {
      var h := FirstStep(adj, off, a, b, m);
      Chain(adj, off, h, b, c, m - 1, n);
      PrependStep(adj, off, a, h, c, m - 1 + n);
    }
  }

  lemma {:induction false} WalkNodes(adj: Adjacency, walk: seq<NodeId>, i: nat)
    requires IsPath(adj, {}, walk) && walk[0] in adj && Undirected(adj) && i < |walk|
    ensures walk[i] in adj
  {
    hide IsPath, Undirected;
    if i > 0 {
      WalkNodes(adj, walk, i - 1);
      StepAt(adj, walk, i);
      NeighborIsNode(adj, walk[i - 1], walk[i]);
    }
  }

  lemma StepAt(adj: Adjacency, walk: seq<NodeId>, i: nat)
    requires IsPath(adj, {}, walk) && 0 < i < |walk|
    ensures walk[i] in Neighbors(adj, walk[i - 1])
  {
  }

  lemma NeighborIsNode(adj: Adjacency, a: NodeId, b: NodeId)
    requires Undirected(adj) && b in Neighbors(adj, a)
    ensures b in adj
  {
  }

  /** A walk that leaves each node once, and never leaves dst, has fewer hops than there are nodes. */
  lemma RelayBound(adj: Adjacency, walk: seq<NodeId>, left: seq<NodeId>, dst: NodeId)
    requires IsPath(adj, {}, walk) && walk[0] in adj && Undirected(adj) && left == walk[..|walk| - 1]
    requires Distinct(left) && dst in adj && dst !in left
    ensures |left| <= |adj| - 1
  {
    DistinctSize(left);
    forall i | 0 <= i < |left| ensures left[i] in adj.Keys - {dst} {
      WalkNodes(adj, walk, i);
      assert left[i] in left;
    }
    forall n | n in Elements(left) ensures n in adj.Keys - {dst} {
      var i :| 0 <= i < |left| && left[i] == n;
    }
    SubsetSize(Elements(left), adj.Keys - {dst});
  }

  // ---- breadth-first search ------------------------------------------------

  /** Distances found so far are lengths of real walks, and no queued or labelled node is ahead of the front. */
  ghost predicate Frontier(adj: Adjacency, src: NodeId, dist: map<NodeId, nat>, queue: seq<NodeId>, front: nat) {
    && src in dist && dist[src] == 0
    && (forall v :: v in dist ==> v in adj && Reaches(adj, {}, src, v, dist[v]) && dist[v] <= front + 1)
    && (forall i :: 0 <= i < |queue| ==> queue[i] in dist && dist[queue[i]] >= front)
    && (forall i, j :: 0 <= i < j < |queue| ==> dist[queue[i]] <= dist[queue[j]])
  }

  /** Every labelled node is still queued or has all its neighbours labelled at most one further. */
  ghost predicate Explored(adj: Adjacency, dist: map<NodeId, nat>, queue: seq<NodeId>, except: Option<NodeId>) {
    forall u :: u in dist && u !in queue && Some(u) != except ==> Relaxed(dist, u, Neighbors(adj, u))
  }

  ghost predicate Relaxed(dist: map<NodeId, nat>, u: NodeId, links: set<NodeId>) {
    u in dist && forall v :: v in links ==> v in dist && dist[v] <= dist[u] + 1
  }

  lemma {:induction false} LabelsAreLeast(adj: Adjacency, src: NodeId, dist: map<NodeId, nat>, q: seq<NodeId>)
    requires src in dist && dist[src] == 0 && Explored(adj, dist, [], None)
    requires IsPath(adj, {}, q) && q[0] == src
    ensures q[|q| - 1] in dist && dist[q[|q| - 1]] <= |q| - 1
  {
    if |q| > 1 {
      LabelsAreLeast(adj, src, dist, q[..|q| - 1]);
      var u, v := q[|q| - 2], q[|q| - 1];
      assert v in ReachableNeighbors(adj, {}, u);
      assert Relaxed(dist, u, Neighbors(adj, u));
    }
  }

  /** Labelling and queueing an unlabelled neighbour of the front node. */
  lemma LabelOne(adj: Adjacency, src: NodeId, node: NodeId, nb: NodeId, dist: map<NodeId, nat>, queue: seq<NodeId>,
      links: set<NodeId>)
    requires Undirected(adj) && node in dist && nb in Neighbors(adj, node) && nb !in dist
    requires Frontier(adj, src, dist, queue, dist[node]) && Explored(adj, dist, queue, Some(node))
    requires Relaxed(dist, node, links)
    ensures Frontier(adj, src, dist[nb := dist[node] + 1], queue + [nb], dist[node])
    ensures Explored(adj, dist[nb := dist[node] + 1], queue + [nb], Some(node))
    ensures Relaxed(dist[nb := dist[node] + 1], node, links + {nb})
  {
    hide Reaches, Undirected;
    AppendStep(adj, {}, src, node, nb, dist[node]);
    NeighborIsNode(adj, node, nb);
    var dist' := dist[nb := dist[node] + 1];
    forall i | 0 <= i < |queue + [nb]|
      ensures (queue + [nb])[i] in dist' && dist[node] <= dist'[(queue + [nb])[i]] <= dist[node] + 1
    {
      if i < |queue| { assert queue[i] in dist && queue[i] != nb; }
    }
    forall i, j | 0 <= i < j < |queue + [nb]| ensures dist'[(queue + [nb])[i]] <= dist'[(queue + [nb])[j]] {
      if j < |queue| { assert dist[queue[i]] <= dist[queue[j]]; }
    }
    forall u | u in dist' && u !in queue + [nb] && u != node ensures Relaxed(dist', u, Neighbors(adj, u)) {
      assert u !in queue && u in dist && Relaxed(dist, u, Neighbors(adj, u));
    }
  }

  method LabelNeighbors(adj: Adjacency, src: NodeId, node: NodeId, dist: map<NodeId, nat>, queue: seq<NodeId>)
    returns (dist': map<NodeId, nat>, queue': seq<NodeId>)
    requires Undirected(adj) && dist.Keys <= adj.Keys && node in dist
    requires Frontier(adj, src, dist, queue, dist[node]) && Explored(adj, dist, queue, Some(node))
    ensures node in dist' && dist'[node] == dist[node]
    ensures Frontier(adj, src, dist', queue', dist'[node]) && Explored(adj, dist', queue', None)
    ensures dist.Keys <= dist'.Keys <= adj.Keys
    ensures |dist'| - |dist| == |queue'| - |queue|
  {
    hide Reaches, Undirected;
    dist', queue' := dist, queue;
    var todo := Neighbors(adj, node);
    while todo != {}
      invariant todo <= Neighbors(adj, node) && dist.Keys <= dist'.Keys <= adj.Keys
      invariant node in dist' && dist'[node] == dist[node] && Frontier(adj, src, dist', queue', dist[node])
      invariant Explored(adj, dist', queue', Some(node)) && Relaxed(dist', node, Neighbors(adj, node) - todo)
      invariant |dist'| - |dist| == |queue'| - |queue|
    {
      var nb := PickNode(todo);
      ghost var done := Neighbors(adj, node) - todo;
      todo := todo - {nb};
      assert Neighbors(adj, node) - todo == done + {nb};
      NeighborIsNode(adj, node, nb);
      if nb !in dist' {
        LabelOne(adj, src, node, nb, dist', queue', done);
        dist' := dist'[nb := dist'[node] + 1];
        queue' := queue' + [nb];
      }
    }
  }

  /** _bfs_hops: hop counts from src to every node it can reach, offline or not. */
  method BfsHops(adj: Adjacency, src: NodeId) returns (dist: map<NodeId, nat>)
    requires Undirected(adj) && src in adj
    ensures dist.Keys <= adj.Keys
    ensures forall v :: v in dist ==> IsDist(adj, {}, src, v, dist[v])
    ensures forall v :: v !in dist ==> !Joined(adj, {}, src, v)
  {
    hide Undirected, Reaches, IsDist, Joined, Relaxed;
    dist := map[src := 0];
    StayPut(adj, {}, src);
    var queue := [src];
    ghost var front := 0;
    while |queue| > 0
      invariant dist.Keys <= adj.Keys
      invariant Frontier(adj, src, dist, queue, front) && Explored(adj, dist, queue, None)
      decreases |adj| - |dist|, |queue|
    {
      var node := queue[0];
      ghost var before := dist;
      front := dist[node];
      forall u | u in dist && u !in queue[1..] && u != node ensures Relaxed(dist, u, Neighbors(adj, u)) {
        assert u !in queue;
      }
      dist, queue := LabelNeighbors(adj, src, node, dist, queue[1..]);
      KeysBound(adj, before, dist);
    }
    AllLabelled(adj, src, dist, front);
  }

  /** With nothing left to explore the labels are the distances. */
  lemma AllLabelled(adj: Adjacency, src: NodeId, dist: map<NodeId, nat>, front: nat)
    requires Frontier(adj, src, dist, [], front) && Explored(adj, dist, [], None)
    ensures forall v :: v in dist ==> IsDist(adj, {}, src, v, dist[v])
    ensures forall v :: v !in dist ==> !Joined(adj, {}, src, v)
  {
    forall v | v in dist ensures IsDist(adj, {}, src, v, dist[v]) {
      forall q | PathBetween(adj, {}, q, src, v) ensures dist[v] <= |q| - 1 {
        LabelsAreLeast(adj, src, dist, q);
      }
    }
    forall v, q | PathBetween(adj, {}, q, src, v) ensures v in dist {
      LabelsAreLeast(adj, src, dist, q);
    }
  }

  lemma KeysBound(adj: Adjacency, before: map<NodeId, nat>, after: map<NodeId, nat>)
    requires before.Keys <= after.Keys <= adj.Keys
    ensures |before| <= |after| <= |adj|
    ensures |before| == |after| ==> before.Keys == after.Keys
  {
    SubsetSize(before.Keys, after.Keys);
    SubsetSize(after.Keys, adj.Keys);
  }
}
