/** The peer-to-peer graph of aegis_router/graph.py: adjacency with link metrics, the set of
    nodes known offline, and paths over links that a live router may use. */
module Network {

  type NodeId = int
  type Edge = (NodeId, NodeId)

  datatype Option<+T> = None | Some(value: T)

  datatype LinkMetrics = LinkMetrics(latency: real, bandwidth: real, loss: real, stability: real) {
    function Cost(): real {
      latency + 8.0 * loss + (1.0 - stability) - 0.15 * bandwidth
    }
  }

  type Adjacency = map<NodeId, map<NodeId, LinkMetrics>>

  /** Links are undirected: both ends record the same metrics, so every neighbour is a node. */
  ghost predicate Undirected(adj: Adjacency) {
    forall a, b {:trigger b in adj[a]} ::
      a in adj && b in adj[a] ==> b in adj && a in adj[b] && adj[b][a] == adj[a][b]
  }

  /** No node is its own neighbour. */
  ghost predicate Irreflexive(adj: Adjacency) {
    forall n :: n !in Neighbors(adj, n)
  }

  function Neighbors(adj: Adjacency, n: NodeId): set<NodeId> {
    if n in adj then adj[n].Keys else {}
  }

  /** Neighbours a router may still address: those not known offline. */
  function ReachableNeighbors(adj: Adjacency, off: set<NodeId>, n: NodeId): set<NodeId> {
    Neighbors(adj, n) - off
  }

  /** A walk whose every step follows a link to a node that is not offline. */
  ghost predicate IsPath(adj: Adjacency, off: set<NodeId>, p: seq<NodeId>) {
    |p| >= 1 && forall i {:trigger p[i]} :: 0 < i < |p| ==> p[i] in ReachableNeighbors(adj, off, p[i - 1])
  }

  ghost predicate PathBetween(adj: Adjacency, off: set<NodeId>, p: seq<NodeId>, a: NodeId, b: NodeId) {
    IsPath(adj, off, p) && p[0] == a && p[|p| - 1] == b
  }

  function WithEdge(adj: Adjacency, a: NodeId, b: NodeId, m: LinkMetrics): Adjacency {
    var adj1 := WithNode(WithNode(adj, a), b);
    var adj2 := adj1[a := adj1[a][b := m]];
    adj2[b := adj2[b][a := m]]
  }

  function WithNode(adj: Adjacency, n: NodeId): Adjacency {
    if n in adj then adj else adj[n := map[]]
  }

  /** What the four map updates of add_edge leave behind. */
  lemma WithEdgeLinks(adj: Adjacency, a: NodeId, b: NodeId, m: LinkMetrics)
    ensures WithEdge(adj, a, b, m).Keys == adj.Keys + {a, b}
    ensures forall x, y {:trigger y in WithEdge(adj, a, b, m)[x]} :: x in WithEdge(adj, a, b, m) ==>
      (y in WithEdge(adj, a, b, m)[x] <==> (x, y) == (a, b) || (x, y) == (b, a) || y in Neighbors(adj, x))
    ensures forall x, y {:trigger WithEdge(adj, a, b, m)[x][y]} ::
      x in WithEdge(adj, a, b, m) && y in WithEdge(adj, a, b, m)[x] ==>
      WithEdge(adj, a, b, m)[x][y] == if (x, y) == (a, b) || (x, y) == (b, a) then m else adj[x][y]
  {
  }

  lemma WithEdgeUndirected(adj: Adjacency, a: NodeId, b: NodeId, m: LinkMetrics)
    requires Undirected(adj)
    ensures Undirected(WithEdge(adj, a, b, m))
  {
    WithEdgeLinks(adj, a, b, m);
  }

  /** The next key of a dictionary iteration; any order is possible. */
  method PickNode<T>(s: set<T>) returns (n: T)
    requires s != {}
    ensures n in s
  {
    n :| n in s;
  }
}
