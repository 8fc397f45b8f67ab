/** The two first-hop searches of aegis_router/graph.py.  Both pop the least (cost, node, first hop)
    triple from a heap in which superseded entries stay behind, and return only a first hop. */
module PathSearch {
  import opened Network
  import opened HopDistance

  type Weights = map<NodeId, map<NodeId, real>>

  /** What a heap entry adds for one link: 1 for the hop-count search. */
  function HopWeights(adj: Adjacency): Weights {
    map a | a in adj :: map b | b in adj[a] :: 1.0
  }

  /** max(0.001, cost) for the quality search. */
  function QualityWeights(adj: Adjacency): Weights {
    map a | a in adj :: map b | b in adj[a] :: if adj[a][b].Cost() > 0.001 then adj[a][b].Cost() else 0.001
  }

  ghost predicate Weighted(adj: Adjacency, w: Weights) {
    && w.Keys == adj.Keys
    && forall a, b {:trigger w[a][b]} {:trigger b in adj[a]} ::
      a in adj ==> (b in w[a] <==> b in adj[a]) && (b in adj[a] ==> w[a][b] > 0.0)
  }

  function Weight(w: Weights, a: NodeId, b: NodeId): real {
    if a in w && b in w[a] then w[a][b] else 0.0
  }

  ghost function PathCost(w: Weights, p: seq<NodeId>): real {
    if |p| < 2 then 0.0 else PathCost(w, p[..|p| - 1]) + Weight(w, p[|p| - 2], p[|p| - 1])
  }

  datatype Entry = Entry(cost: real, node: NodeId, first: Option<NodeId>)

  /** Tuple order of heap entries; None sorts first. */
  predicate Leq(a: Entry, b: Entry) {
    a.cost < b.cost ||
    (a.cost == b.cost && (a.node < b.node ||
    (a.node == b.node && (a.first.None? || (b.first.Some? && a.first.value <= b.first.value)))))
  }

  lemma LeqOrders(a: Entry, b: Entry, c: Entry)
    ensures Leq(a, a) && (Leq(a, b) || Leq(b, a)) && (Leq(a, b) && Leq(b, c) ==> Leq(a, c))
  {
  }

  lemma {:induction false} LeastEntryExists(queue: multiset<Entry>)
    requires |queue| > 0
    ensures exists e :: e in queue && forall x :: x in queue ==> Leq(e, x)
  {
    hide Leq;
    var e :| e in queue;
    var rest := queue - multiset{e};
    LeqOrders(e, e, e);
    if |rest| == 0 {
      assert forall x :: x in queue ==> x == e || x in rest;
    } else {
      LeastEntryExists(rest);
      var m :| m in rest && forall x :: x in rest ==> Leq(m, x);
      LeastOfBoth(queue, e, m);
    }
  }

  lemma LeastOfBoth(queue: multiset<Entry>, e: Entry, m: Entry)
    requires e in queue && m in queue - multiset{e} && forall x :: x in queue - multiset{e} ==> Leq(m, x)
    ensures exists b :: b in queue && forall x :: x in queue ==> Leq(b, x)
  {
    hide Leq;
    var best := if Leq(e, m) then e else m;
    forall x | x in queue ensures Leq(best, x) {
      LeqOrders(e, m, x);
      LeqOrders(m, e, e);
      LeqOrders(e, m, m);
      assert x == e || x in queue - multiset{e};
    }
    assert best in queue;
  }

  /** heapq.heappop on a heap of triples. */
  method HeapPop(queue: multiset<Entry>) returns (e: Entry, rest: multiset<Entry>)
    requires |queue| > 0
    ensures e in queue && rest == queue - multiset{e}
    ensures forall x :: x in queue ==> Leq(e, x)
  {
    LeastEntryExists(queue);
    e :| e in queue && forall x :: x in queue ==> Leq(e, x);
    rest := queue - multiset{e};
  }

  /** p is at least as good as q: cheaper, or as cheap with a first hop that is not larger. */
  ghost predicate AsGood(w: Weights, p: seq<NodeId>, q: seq<NodeId>)
    requires |p| > 1
  {
    PathCost(w, p) < PathCost(w, q) || (PathCost(w, p) == PathCost(w, q) && |q| > 1 && p[1] <= q[1])
  }

  /** p runs from src to v and no path between them is cheaper or ties with a smaller first hop. */
  ghost predicate Best(adj: Adjacency, off: set<NodeId>, w: Weights, p: seq<NodeId>, src: NodeId, v: NodeId) {
    && PathBetween(adj, off, p, src, v)
    && |p| > 1
    && forall q :: PathBetween(adj, off, q, src, v) ==> AsGood(w, p, q)
  }

  // ---- what holds each time round the loop ---------------------------------

  /** The entry pushed for nb when the settled node at the end of p is expanded. */
  ghost function Pushed(w: Weights, p: seq<NodeId>, nb: NodeId): Entry
    requires |p| >= 1
  {
    Entry(PathCost(w, p) + Weight(w, p[|p| - 1], nb), nb, Some(if |p| == 1 then nb else p[1]))
  }

  /** Every settled node carries a best path from src (the trivial path for src itself). */
  ghost predicate Settled(adj: Adjacency, off: set<NodeId>, w: Weights, src: NodeId, tree: map<NodeId, seq<NodeId>>) {
    forall v {:trigger tree[v]} :: v in tree ==>
      |tree[v]| >= 1 && if v == src then tree[v] == [src] else Best(adj, off, w, tree[v], src, v)
  }

  /** Every entry is the cost and first hop of some path from src. */
  ghost predicate Sound(adj: Adjacency, off: set<NodeId>, w: Weights, src: NodeId, queue: multiset<Entry>) {
    forall e :: e in queue ==> exists p :: Describes(adj, off, w, src, p, e)
  }

  ghost predicate Describes(adj: Adjacency, off: set<NodeId>, w: Weights, src: NodeId, p: seq<NodeId>, e: Entry) {
    PathBetween(adj, off, p, src, e.node) && |p| > 1 && e.cost == PathCost(w, p) && e.first == Some(p[1])
  }

  ghost predicate AllPushed(w: Weights, p: seq<NodeId>, links: set<NodeId>, queue: multiset<Entry>) {
    |p| >= 1 && forall nb :: nb in links ==> Pushed(w, p, nb) in queue
  }

  /** Links of u that still need an entry: live, to an unsettled node. */
  ghost function OpenLinks(adj: Adjacency, off: set<NodeId>, tree: map<NodeId, seq<NodeId>>, u: NodeId): set<NodeId> {
    ReachableNeighbors(adj, off, u) - tree.Keys
  }

  /** Every open link of a settled node other than `except` has its entry. */
  ghost predicate Covered(adj: Adjacency, off: set<NodeId>, w: Weights, tree: map<NodeId, seq<NodeId>>,
      queue: multiset<Entry>, except: Option<NodeId>)
  {
    forall u {:trigger tree[u]} :: u in tree && Some(u) != except ==>
      AllPushed(w, tree[u], OpenLinks(adj, off, tree, u), queue)
  }

  lemma {:induction false} CostPositive(adj: Adjacency, off: set<NodeId>, w: Weights, p: seq<NodeId>)
    requires Weighted(adj, w) && IsPath(adj, off, p)
    ensures PathCost(w, p) >= 0.0
    ensures |p| > 1 ==> PathCost(w, p) > 0.0
  {
    if |p| > 1 {
      CostPositive(adj, off, w, p[..|p| - 1]);
      assert p[|p| - 1] in ReachableNeighbors(adj, off, p[|p| - 2]);
    }
  }

  /** The heart of both searches: the least entry bounds every path that leaves the settled nodes. */
  lemma {:induction false} LeastEntryBounds(adj: Adjacency, off: set<NodeId>, w: Weights, src: NodeId,
      tree: map<NodeId, seq<NodeId>>, queue: multiset<Entry>, e: Entry, q: seq<NodeId>)
    requires Weighted(adj, w) && src in tree
    requires Settled(adj, off, w, src, tree) && Covered(adj, off, w, tree, queue, None)
    requires forall x :: x in queue ==> Leq(e, x)
    requires IsPath(adj, off, q) && q[0] == src && q[|q| - 1] !in tree
    ensures |q| > 1
    ensures e.cost <= PathCost(w, q)
    ensures e.cost == PathCost(w, q) && e.node == q[|q| - 1] && e.first.Some? ==> e.first.value <= q[1]
  {
    var q', x, v := q[..|q| - 1], q[|q| - 2], q[|q| - 1];
    assert v in ReachableNeighbors(adj, off, x);
    if x in tree {
      assert v in OpenLinks(adj, off, tree, x) && AllPushed(w, tree[x], OpenLinks(adj, off, tree, x), queue);
      assert Pushed(w, tree[x], v) in queue;
      CostPositive(adj, off, w, q');
      assert PathBetween(adj, off, q', src, x);
    } else {
      LeastEntryBounds(adj, off, w, src, tree, queue, e, q');
    }
  }

  /** With nothing left in the heap no path leaves the settled nodes. */
  lemma {:induction false} SettledClosed(adj: Adjacency, off: set<NodeId>, w: Weights, src: NodeId,
      tree: map<NodeId, seq<NodeId>>, q: seq<NodeId>)
    requires src in tree && Covered(adj, off, w, tree, multiset{}, None)
    requires IsPath(adj, off, q) && q[0] == src
    ensures q[|q| - 1] in tree
  {
    if |q| > 1 {
      var u, v := q[|q| - 2], q[|q| - 1];
      SettledClosed(adj, off, w, src, tree, q[..|q| - 1]);
      assert v in ReachableNeighbors(adj, off, u);
      assert AllPushed(w, tree[u], OpenLinks(adj, off, tree, u), multiset{});
      assert v !in OpenLinks(adj, off, tree, u);
    }
  }

  ghost predicate SearchState(adj: Adjacency, off: set<NodeId>, w: Weights, src: NodeId, tree: map<NodeId, seq<NodeId>>,
      queue: multiset<Entry>)
  {
    if tree == map[] then queue == multiset{Entry(0.0, src, None)}
    else && src in tree && Settled(adj, off, w, src, tree) && Sound(adj, off, w, src, queue)
         && Covered(adj, off, w, tree, queue, None)
  }

  /** Popping a node that is already settled changes nothing that matters: the entry was stale. */
  lemma StaleEntry(adj: Adjacency, off: set<NodeId>, w: Weights, src: NodeId, tree: map<NodeId, seq<NodeId>>,
      queue: multiset<Entry>, e: Entry)
    requires SearchState(adj, off, w, src, tree, queue) && e in queue && e.node in tree
    ensures SearchState(adj, off, w, src, tree, queue - multiset{e})
  {
  }

  /** Popping the least entry of an unsettled node yields a best path to it. */
  lemma PoppedIsBest(adj: Adjacency, off: set<NodeId>, w: Weights, src: NodeId, tree: map<NodeId, seq<NodeId>>,
      queue: multiset<Entry>, e: Entry) returns (p: seq<NodeId>)
    requires Weighted(adj, w) && src in tree && e.node !in tree && e in queue
    requires SearchState(adj, off, w, src, tree, queue)
    requires forall x :: x in queue ==> Leq(e, x)
    ensures Describes(adj, off, w, src, p, e) && Best(adj, off, w, p, src, e.node)
  {
    p :| Describes(adj, off, w, src, p, e);
    forall q | PathBetween(adj, off, q, src, e.node) ensures AsGood(w, p, q) {
      LeastEntryBounds(adj, off, w, src, tree, queue, e, q);
    }
  }

  /** What is known of the entry just popped: it is the start, or the end of a best path. */
  ghost predicate Current(adj: Adjacency, off: set<NodeId>, w: Weights, src: NodeId, p: seq<NodeId>, e: Entry) {
    if e.node == src then p == [src] && e == Entry(0.0, src, None)
    else Describes(adj, off, w, src, p, e) && Best(adj, off, w, p, src, e.node)
  }

  /** e.node has just been settled, with best path tree[e.node]; its own links are still to be pushed. */
  ghost predicate Expanding(adj: Adjacency, off: set<NodeId>, w: Weights, src: NodeId, tree: map<NodeId, seq<NodeId>>,
      queue: multiset<Entry>, e: Entry)
  {
    && src in tree && e.node in tree && Current(adj, off, w, src, tree[e.node], e)
    && Settled(adj, off, w, src, tree) && Sound(adj, off, w, src, queue)
    && Covered(adj, off, w, tree, queue, Some(e.node))
  }

  /** Popping an unsettled node settles it. */
  lemma SettleEntry(adj: Adjacency, off: set<NodeId>, w: Weights, src: NodeId, tree: map<NodeId, seq<NodeId>>,
      queue: multiset<Entry>, e: Entry) returns (tree': map<NodeId, seq<NodeId>>)
    requires Undirected(adj) && Weighted(adj, w) && src in adj
    requires SearchState(adj, off, w, src, tree, queue) && e in queue && e.node !in tree
    requires forall x :: x in queue ==> Leq(e, x)
    ensures tree'.Keys == tree.Keys + {e.node} && e.node in adj
    ensures Expanding(adj, off, w, src, tree', queue - multiset{e}, e)
  {
    hide Best, Describes, Undirected, Weighted, Leq, Covered;
    if tree == map[] {
      tree' := map[e.node := [src]];
      assert queue - multiset{e} == multiset{};
      assert Covered(adj, off, w, tree', queue - multiset{e}, Some(e.node)) by { CoveredStart(adj, off, w, tree', e); }
    } else {
      var p := PoppedIsBest(adj, off, w, src, tree, queue, e);
      EndKnown(adj, off, w, src, p, e);
      tree' := tree[e.node := p];
      CoveredStill(adj, off, w, tree, queue, e, p);
    }
  }

  lemma CoveredStart(adj: Adjacency, off: set<NodeId>, w: Weights, tree: map<NodeId, seq<NodeId>>, e: Entry)
    requires tree.Keys == {e.node}
    ensures Covered(adj, off, w, tree, multiset{}, Some(e.node))
  {
  }

  lemma EndKnown(adj: Adjacency, off: set<NodeId>, w: Weights, src: NodeId, p: seq<NodeId>, e: Entry)
    requires Undirected(adj) && Describes(adj, off, w, src, p, e)
    ensures e.node in adj && |p| > 1
  {
    hide PathCost, IsPath;
    LastStep(adj, off, p);
    assert e.node in adj[p[|p| - 2]];
  }

  lemma LastStep(adj: Adjacency, off: set<NodeId>, p: seq<NodeId>)
    requires IsPath(adj, off, p) && |p| > 1
    ensures p[|p| - 1] in ReachableNeighbors(adj, off, p[|p| - 2])
  {
  }

  /** Entries pushed for other nodes are still there once e is popped. */
  lemma CoveredStill(adj: Adjacency, off: set<NodeId>, w: Weights, tree: map<NodeId, seq<NodeId>>,
      queue: multiset<Entry>, e: Entry, p: seq<NodeId>)
    requires Covered(adj, off, w, tree, queue, None) && e.node !in tree
    ensures Covered(adj, off, w, tree[e.node := p], queue - multiset{e}, Some(e.node))
  {
    hide PathCost, ReachableNeighbors;
    var tree' := tree[e.node := p];
    forall u | u in tree' && u != e.node
      ensures AllPushed(w, tree'[u], OpenLinks(adj, off, tree', u), queue - multiset{e})
    {
      assert AllPushed(w, tree[u], OpenLinks(adj, off, tree, u), queue);
    }
  }

  /** A new entry out of the node just settled describes the path through it. */
  lemma PushedDescribes(adj: Adjacency, off: set<NodeId>, w: Weights, src: NodeId, p: seq<NodeId>, e: Entry, nb: NodeId)
    requires Current(adj, off, w, src, p, e) && nb in ReachableNeighbors(adj, off, e.node)
    ensures Describes(adj, off, w, src, p + [nb], Pushed(w, p, nb))
  {
  }

  /** Once its entries are pushed the node is like any other settled node. */
  lemma Expanded(adj: Adjacency, off: set<NodeId>, w: Weights, src: NodeId, tree: map<NodeId, seq<NodeId>>,
      rest: multiset<Entry>, queue: multiset<Entry>, e: Entry)
    requires Expanding(adj, off, w, src, tree, rest, e) && rest <= queue && Sound(adj, off, w, src, queue)
    requires AllPushed(w, tree[e.node], OpenLinks(adj, off, tree, e.node), queue)
    ensures SearchState(adj, off, w, src, tree, queue)
  {
  }

  /** Push an entry for every neighbour of the node just popped that is neither seen nor offline. */
  method PushNeighbors(adj: Adjacency, off: set<NodeId>, w: Weights, seen: set<NodeId>, queue: multiset<Entry>,
      e: Entry, ghost src: NodeId, ghost tree: map<NodeId, seq<NodeId>>) returns (q: multiset<Entry>)
    requires Weighted(adj, w) && e.node in adj && seen == tree.Keys && Expanding(adj, off, w, src, tree, queue, e)
    ensures SearchState(adj, off, w, src, tree, q)
  {
    q := queue;
    ghost var p := tree[e.node];
    var todo := Neighbors(adj, e.node);
    while todo != {}
      invariant todo <= Neighbors(adj, e.node) && queue <= q
      invariant Sound(adj, off, w, src, q)
      invariant AllPushed(w, p, OpenLinks(adj, off, tree, e.node) - todo, q)
    {
      var nb := PickNode(todo);
      todo := todo - {nb};
      if nb in seen || nb in off {
        continue;
      }
      var hop := if e.first.None? then nb else e.first.value;
      var entry := Entry(e.cost + w[e.node][nb], nb, Some(hop));
      assert entry == Pushed(w, p, nb);
      PushedDescribes(adj, off, w, src, p, e, nb);
      q := q + multiset{entry};
    }
    Expanded(adj, off, w, src, tree, queue, q, e);
  }

  lemma NothingLeft(adj: Adjacency, off: set<NodeId>, w: Weights, src: NodeId, dst: NodeId,
      tree: map<NodeId, seq<NodeId>>)
    requires SearchState(adj, off, w, src, tree, multiset{}) && dst !in tree
    ensures forall q :: !PathBetween(adj, off, q, src, dst)
  {
    assert Entry(0.0, src, None) !in multiset{};
    forall q | PathBetween(adj, off, q, src, dst) ensures false {
      SettledClosed(adj, off, w, src, tree, q);
    }
  }

  lemma Started(adj: Adjacency, off: set<NodeId>, w: Weights, src: NodeId)
    ensures SearchState(adj, off, w, src, map[], multiset{Entry(0.0, src, None)})
  {
  }

  lemma GoalReached(adj: Adjacency, off: set<NodeId>, w: Weights, src: NodeId, tree: map<NodeId, seq<NodeId>>,
      queue: multiset<Entry>, e: Entry)
    requires Expanding(adj, off, w, src, tree, queue, e) && e.node != src
    ensures e.first.Some? && exists p :: Best(adj, off, w, p, src, e.node) && p[1] == e.first.value
  {
    hide Settled, Sound, Covered;
  }

  /** The loop shared by shortest_path_next_hop and quality_path_next_hop. */
  method SearchFirstHop(adj: Adjacency, off: set<NodeId>, w: Weights, src: NodeId, dst: NodeId)
    returns (next: Option<NodeId>)
    requires Undirected(adj) && Weighted(adj, w) && src in adj && src != dst
    ensures next.None? ==> forall q :: !PathBetween(adj, off, q, src, dst)
    ensures next.Some? ==> exists p :: Best(adj, off, w, p, src, dst) && p[1] == next.value
  {
    hide SearchState, Expanding, Best, PathBetween, Undirected, Weighted, Leq;
    var queue := multiset{Entry(0.0, src, None)};
    var seen: set<NodeId> := {};
    ghost var tree: map<NodeId, seq<NodeId>> := map[];
    Started(adj, off, w, src);
    while |queue| > 0
      invariant seen == tree.Keys && seen <= adj.Keys && dst !in seen
      invariant SearchState(adj, off, w, src, tree, queue)
      decreases |adj.Keys - seen|, |queue|
    {
      ghost var full := queue;
      var e;
      e, queue := HeapPop(queue);
      if e.node in seen {
        StaleEntry(adj, off, w, src, tree, full, e);
        continue;
      }
      tree := SettleEntry(adj, off, w, src, tree, full, e);
      assert adj.Keys - (seen + {e.node}) < adj.Keys - seen;
      seen := seen + {e.node};
      if e.node == dst {
        GoalReached(adj, off, w, src, tree, queue, e);
        return e.first;
      }
      queue := PushNeighbors(adj, off, w, seen, queue, e, src, tree);
    }
    NothingLeft(adj, off, w, src, dst, tree);
    return None;
  }

  // ---- what the answers mean -------------------------------------------------

  /** h is the smallest of the live neighbours of src that are one hop nearer to dst than src is. */
  ghost predicate IsFirstHop(adj: Adjacency, off: set<NodeId>, src: NodeId, dst: NodeId, d: nat, h: NodeId) {
    && IsDist(adj, off, src, dst, d + 1)
    && h in ReachableNeighbors(adj, off, src) && IsDist(adj, off, h, dst, d)
    && forall other :: other in ReachableNeighbors(adj, off, src) && IsDist(adj, off, other, dst, d) ==> h <= other
  }

  /** What shortest_path_next_hop answers for distinct src and dst. */
  ghost predicate ShortestAnswer(adj: Adjacency, off: set<NodeId>, src: NodeId, dst: NodeId, next: Option<NodeId>) {
    if next.None? then !Joined(adj, off, src, dst) else exists d: nat :: IsFirstHop(adj, off, src, dst, d, next.value)
  }

  lemma {:induction false} HopCost(adj: Adjacency, off: set<NodeId>, p: seq<NodeId>)
    requires IsPath(adj, off, p)
    ensures PathCost(HopWeights(adj), p) == (|p| - 1) as real
  {
    if |p| > 1 {
      HopCost(adj, off, p[..|p| - 1]);
      assert p[|p| - 1] in ReachableNeighbors(adj, off, p[|p| - 2]);
    }
  }

  lemma BestIsShortest(adj: Adjacency, off: set<NodeId>, p: seq<NodeId>, src: NodeId, dst: NodeId, q: seq<NodeId>)
    requires Best(adj, off, HopWeights(adj), p, src, dst) && PathBetween(adj, off, q, src, dst)
    ensures |p| < |q| || (|p| == |q| && p[1] <= q[1])
  {
    HopCost(adj, off, p);
    HopCost(adj, off, q);
    assert AsGood(HopWeights(adj), p, q);
  }

  lemma Tail(adj: Adjacency, off: set<NodeId>, p: seq<NodeId>)
    requires IsPath(adj, off, p) && |p| > 1
    ensures IsPath(adj, off, p[1..])
  {
  }

  /** No live neighbour gets to dst in fewer hops than the tail of a best path, nor in as many with a smaller id. */
  lemma NoNearer(adj: Adjacency, off: set<NodeId>, p: seq<NodeId>, src: NodeId, dst: NodeId, h: NodeId, n: nat)
    requires Best(adj, off, HopWeights(adj), p, src, dst)
    requires h in ReachableNeighbors(adj, off, src) && Reaches(adj, off, h, dst, n)
    ensures n >= |p| - 2 && (n == |p| - 2 ==> p[1] <= h)
  {
    hide IsPath, PathCost, HopWeights;
    var q :| PathBetween(adj, off, q, h, dst) && |q| == n + 1;
    Prepended(adj, off, src, q);
    assert PathBetween(adj, off, [src] + q, src, dst);
    BestIsShortest(adj, off, p, src, dst, [src] + q);
  }

  /** A best path by hop count starts with the smallest neighbour that is strictly nearer. */
  lemma BestIsNearest(adj: Adjacency, off: set<NodeId>, p: seq<NodeId>, src: NodeId, dst: NodeId)
    requires Best(adj, off, HopWeights(adj), p, src, dst)
    ensures IsFirstHop(adj, off, src, dst, |p| - 2, p[1])
  {
    var d := |p| - 2;
    assert Reaches(adj, off, src, dst, d + 1);
    forall n: nat | Reaches(adj, off, src, dst, n) ensures n >= d + 1 {
      var q :| PathBetween(adj, off, q, src, dst) && |q| == n + 1;
      BestIsShortest(adj, off, p, src, dst, q);
    }
    Tail(adj, off, p);
    assert PathBetween(adj, off, p[1..], p[1], dst) && p[1] in ReachableNeighbors(adj, off, p[0]);
    forall h, n: nat | h in ReachableNeighbors(adj, off, src) && Reaches(adj, off, h, dst, n)
      ensures n >= d && (n == d ==> p[1] <= h)
    {
      NoNearer(adj, off, p, src, dst, h, n);
    }
  }

  /** The answer is unique, whatever order the heap and the dictionaries iterate in. */
  lemma ShortestAnswerUnique(adj: Adjacency, off: set<NodeId>, src: NodeId, dst: NodeId, a: Option<NodeId>,
      b: Option<NodeId>)
    requires ShortestAnswer(adj, off, src, dst, a) && ShortestAnswer(adj, off, src, dst, b)
    ensures a == b
  {
  }
}
