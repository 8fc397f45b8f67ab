/** Landmark vectors and the lower bound they give on hop distance (aegis_router/graph.py,
    aegis_router/agent.py). */
module Landmarks {
  import opened Network
  import opened HopDistance

  type Vectors = map<NodeId, seq<nat>>

  /** Entry of a vector: the hop distance to the landmark, or the node count when it is out of reach. */
  ghost predicate IsEntry(adj: Adjacency, mark: NodeId, n: NodeId, x: nat) {
    if Joined(adj, {}, mark, n) then IsDist(adj, {}, mark, n, x) else x == |adj|
  }

  ghost predicate AreVectors(adj: Adjacency, marks: seq<NodeId>, vec: Vectors) {
    && vec.Keys == adj.Keys
    && forall n {:trigger vec[n]} :: n in vec ==>
      IsVector(adj, marks, n, vec[n])
  }

  ghost predicate IsVector(adj: Adjacency, marks: seq<NodeId>, n: NodeId, v: seq<nat>) {
    |v| == |marks| && forall i :: 0 <= i < |marks| ==> IsEntry(adj, marks[i], n, v[i])
  }

  /** Each node's vector, one entry longer. */
  function Extended(adj: Adjacency, vec: Vectors, d: map<NodeId, nat>): (r: Vectors) {
    map n | n in adj :: (if n in vec then vec[n] else []) + [if n in d then d[n] else |adj|]
  }

  /** Extending every vector by the breadth-first distances from one more landmark. */
  lemma AddLandmark(adj: Adjacency, marks: seq<NodeId>, vec: Vectors, mark: NodeId, d: map<NodeId, nat>)
    requires AreVectors(adj, marks, vec)
    requires forall v :: v in d ==> IsDist(adj, {}, mark, v, d[v])
    requires forall v :: v !in d ==> !Joined(adj, {}, mark, v)
    ensures AreVectors(adj, marks + [mark], Extended(adj, vec, d))
  {
  }

  method OneLandmark(adj: Adjacency, ghost marks: seq<NodeId>, vec: Vectors, mark: NodeId) returns (vec': Vectors)
    requires Undirected(adj) && mark in adj && AreVectors(adj, marks, vec)
    ensures AreVectors(adj, marks + [mark], vec')
  {
    var d := BfsHops(adj, mark);
    vec' := Extended(adj, vec, d);
    AddLandmark(adj, marks, vec, mark, d);
  }

  /** Breadth-first distances from each landmark in turn, one vector per node. */
  method LandmarkVectors(adj: Adjacency, marks: seq<NodeId>) returns (vec: Vectors)
    requires Undirected(adj) && forall i :: 0 <= i < |marks| ==> marks[i] in adj
    ensures AreVectors(adj, marks, vec)
  {
    vec := map n | n in adj :: [];
    for i := 0 to |marks|
      invariant AreVectors(adj, marks[..i], vec)
    {
      vec := OneLandmark(adj, marks[..i], vec, marks[i]);
      assert marks[..i + 1] == marks[..i] + [marks[i]];
    }
    assert marks[..|marks|] == marks;
  }

  function EntryAt(vec: Vectors, n: NodeId, i: nat): nat {
    if n in vec && i < |vec[n]| then vec[n][i] else 0
  }

  function Diff(x: int, y: int): nat { if x < y then y - x else x - y }

  /** max |x - y| over the paired entries. */
  function Gap(va: seq<nat>, vb: seq<nat>): nat
    requires |va| == |vb|
  {
    if |va| == 0 then 0 else
      var rest := Gap(va[..|va| - 1], vb[..|vb| - 1]);
      var last := Diff(va[|va| - 1], vb[|vb| - 1]);
      if last > rest then last else rest
  }

  /** The gap is the least upper bound of the entry differences. */
  lemma {:induction false} GapIsMax(va: seq<nat>, vb: seq<nat>)
    requires |va| == |vb|
    ensures forall i :: 0 <= i < |va| ==> Diff(va[i], vb[i]) <= Gap(va, vb)
    ensures |va| > 0 ==> exists i :: 0 <= i < |va| && Diff(va[i], vb[i]) == Gap(va, vb)
  {
    if |va| > 0 {
      var k := |va| - 1;
      GapIsMax(va[..k], vb[..k]);
      forall i | 0 <= i < |va| ensures Diff(va[i], vb[i]) <= Gap(va, vb) {
        if i < k { assert va[..k][i] == va[i] && vb[..k][i] == vb[i]; }
      }
      if Diff(va[k], vb[k]) != Gap(va, vb) {
        assert Gap(va, vb) == Gap(va[..k], vb[..k]) > 0;
        var i :| 0 <= i < k && Diff(va[..k][i], vb[..k][i]) == Gap(va[..k], vb[..k]);
        assert Diff(va[i], vb[i]) == Gap(va, vb);
      }
    }
  }

  /** An estimate of a hop distance: there may be no vectors, or nothing to take the maximum of. */
  datatype Estimate = Missing | EmptyMax | Hops(hops: nat)

  /** landmark_distance: over the entries two vectors have in common. */
  function LandmarkDistance(vec: Option<Vectors>, a: NodeId, b: NodeId): Estimate {
    if vec.None? then Missing
    else if a == b then Hops(0)
    else if a !in vec.value || b !in vec.value then Missing
    else
      var va, vb := vec.value[a], vec.value[b];
      var k := if |va| < |vb| then |va| else |vb|;
      if k == 0 then EmptyMax else Hops(Gap(va[..k], vb[..k]))
  }

  /** Between nodes with vectors the estimate is the gap, and fails exactly without landmarks. */
  lemma EstimateIsGap(adj: Adjacency, marks: seq<NodeId>, vec: Vectors, a: NodeId, b: NodeId)
    requires AreVectors(adj, marks, vec) && a in adj && b in adj
    ensures LandmarkDistance(Some(vec), a, b) ==
            if a != b && |marks| == 0 then EmptyMax else Hops(Gap(vec[a], vec[b]))
  {
    assert |vec[a]| == |vec[b]| == |marks|;
    assert vec[a][..|marks|] == vec[a] && vec[b][..|marks|] == vec[b];
    GapSymmetric(vec[a], vec[a]);
  }

  // ---- one link changes an entry by at most one ----------------------------

  lemma EntryStep(adj: Adjacency, mark: NodeId, a: NodeId, b: NodeId, x: nat, y: nat)
    requires Undirected(adj) && b in Neighbors(adj, a)
    requires IsEntry(adj, mark, a, x) && IsEntry(adj, mark, b, y)
    ensures Diff(x, y) <= 1
  {
    hide Reaches, Undirected;
    LinkBack(adj, a, b);
    forall n: nat | Reaches(adj, {}, mark, a, n) ensures Reaches(adj, {}, mark, b, n + 1) {
      AppendStep(adj, {}, mark, a, b, n);
    }
    forall n: nat | Reaches(adj, {}, mark, b, n) ensures Reaches(adj, {}, mark, a, n + 1) {
      AppendStep(adj, {}, mark, b, a, n);
    }
  }

  lemma {:induction false} EntryAlongPath(adj: Adjacency, marks: seq<NodeId>, vec: Vectors, p: seq<NodeId>, i: nat)
    requires Undirected(adj) && AreVectors(adj, marks, vec) && i < |marks|
    requires IsPath(adj, {}, p) && p[0] in adj
    ensures p[|p| - 1] in adj && Diff(EntryAt(vec, p[0], i), EntryAt(vec, p[|p| - 1], i)) <= |p| - 1
  {
    hide Undirected;
    if |p| > 1 {
      EntryAlongPath(adj, marks, vec, p[..|p| - 1], i);
      var u, v := p[|p| - 2], p[|p| - 1];
      StepAt(adj, p, |p| - 1);
      NeighborIsNode(adj, u, v);
      hide IsPath;
      assert |vec[u]| == |vec[v]| == |marks|;
      EntryStep(adj, marks[i], u, v, vec[u][i], vec[v][i]);
    }
  }

  // ---- the heuristic's laws ------------------------------------------------

  /** Admissible: the estimate never exceeds the true hop distance. */
  lemma Admissible(adj: Adjacency, marks: seq<NodeId>, vec: Vectors, a: NodeId, b: NodeId, d: nat)
    requires Undirected(adj) && AreVectors(adj, marks, vec) && a in adj && b in adj
    requires IsDist(adj, {}, a, b, d)
    ensures Gap(vec[a], vec[b]) <= d
  {
    GapIsMax(vec[a], vec[b]);
    var p :| PathBetween(adj, {}, p, a, b) && |p| == d + 1;
    forall i | 0 <= i < |marks| ensures Diff(vec[a][i], vec[b][i]) <= d {
      EntryAlongPath(adj, marks, vec, p, i);
    }
  }

  /** Symmetric, and zero from a node to itself. */
  lemma GapSymmetric(va: seq<nat>, vb: seq<nat>)
    requires |va| == |vb|
    ensures Gap(va, vb) == Gap(vb, va) && Gap(va, va) == 0
  {
  }

  lemma GapTriangle(va: seq<nat>, vb: seq<nat>, vc: seq<nat>)
    requires |va| == |vb| == |vc|
    ensures Gap(va, vc) <= Gap(va, vb) + Gap(vb, vc)
  {
  }

  /** Exact when one end is a landmark and the two are joined. */
  lemma ExactAtLandmark(adj: Adjacency, marks: seq<NodeId>, vec: Vectors, i: nat, b: NodeId, d: nat)
    requires Undirected(adj) && AreVectors(adj, marks, vec) && i < |marks| && marks[i] in adj && b in adj
    requires IsDist(adj, {}, marks[i], b, d)
    ensures Gap(vec[marks[i]], vec[b]) == Gap(vec[b], vec[marks[i]]) == d
  {
    var a := marks[i];
    Admissible(adj, marks, vec, a, b, d);
    StayPut(adj, {}, a);
    GapSymmetric(vec[a], vec[b]);
    assert IsEntry(adj, a, a, vec[a][i]) && IsEntry(adj, a, b, vec[b][i]);
    DistUnique(adj, {}, a, b, d, vec[b][i]);
    GapIsMax(vec[a], vec[b]);
    assert Diff(vec[a][i], vec[b][i]) == d;
  }

  /** Consistent: moving to a neighbour changes the estimate to any third node by at most one. */
  lemma Consistent(adj: Adjacency, marks: seq<NodeId>, vec: Vectors, a: NodeId, nb: NodeId, c: NodeId)
    requires Undirected(adj) && AreVectors(adj, marks, vec) && a in adj && nb in Neighbors(adj, a) && c in adj
    ensures Diff(Gap(vec[a], vec[c]), Gap(vec[nb], vec[c])) <= 1
  {
    var va, vb, vc := vec[a], vec[nb], vec[c];
    forall i | 0 <= i < |marks| ensures Diff(va[i], vb[i]) <= 1 {
      EntryStep(adj, marks[i], a, nb, va[i], vb[i]);
    }
    GapIsMax(va, vb);
    GapTriangle(va, vb, vc);
    GapTriangle(vb, va, vc);
    GapSymmetric(va, vb);
  }

  // ---- progress hint of the scorers ----------------------------------------

  function RingDistance(a: NodeId, b: NodeId, n: nat): int {
    var d := Diff(b, a);
    if d < n - d then d else n - d
  }

  /** _progress_delta: landmark estimate before minus after, or the legacy ring formula; None stands for
      the ValueError of an empty maximum. */
  function ProgressDelta(adj: Adjacency, vec: Option<Vectors>, node: NodeId, nb: NodeId, dst: NodeId): Option<real> {
    var before, after := LandmarkDistance(vec, node, dst), LandmarkDistance(vec, nb, dst);
    if before.EmptyMax? || after.EmptyMax? then None
    else if before.Hops? && after.Hops? then Some(if before.hops <= 0 then 1.0 else (before.hops - after.hops) as real)
    else
      var n := if |adj| > 1 then |adj| else 1;
      var ringBefore := RingDistance(node, dst, n);
      Some(if ringBefore == 0 then 1.0 else (ringBefore - RingDistance(nb, dst, n)) as real / ringBefore as real)
  }

  /** The landmark hint for a neighbour fails exactly when there are no landmarks to compare by; otherwise
      it is a hop count in [-1, 1], also when landmarks are unreachable. */
  lemma ProgressBounded(adj: Adjacency, marks: seq<NodeId>, vec: Vectors, node: NodeId, nb: NodeId, dst: NodeId)
    requires Undirected(adj) && AreVectors(adj, marks, vec) && node in adj && nb in Neighbors(adj, node) && dst in adj
    ensures var r := ProgressDelta(adj, Some(vec), node, nb, dst);
      if |marks| == 0 && (node != dst || nb != dst) then r == None else r.Some? && -1.0 <= r.value <= 1.0
  {
    hide Undirected, Gap, IsVector, RingDistance, LandmarkDistance;
    NeighborIsNode(adj, node, nb);
    Consistent(adj, marks, vec, node, nb, dst);
    EstimateIsGap(adj, marks, vec, node, dst);
    EstimateIsGap(adj, marks, vec, nb, dst);
  }

  /** Two linked nodes with vectors for no landmarks: the estimate is the maximum of nothing, and the hint fails. */
  lemma NoLandmarksExample(m: LinkMetrics)
    ensures var adj, vec := WithEdge(map[], 0, 1, m), map[0 := [], 1 := []];
      && Undirected(adj) && 1 in Neighbors(adj, 0) && AreVectors(adj, [], vec)
      && LandmarkDistance(Some(vec), 0, 1) == EmptyMax && ProgressDelta(adj, Some(vec), 0, 1, 1) == None
  {
    hide Undirected;
    WithEdgeUndirected(map[], 0, 1, m);
  }
}
