/** How the reputation routers choose a next hop (aegis_router/solvers.py, repulink.py and agent.py):
    among live neighbours, unvisited ones first, by risk budget, trust or score. */
module Selection {
  import opened Network
  import opened Packets

  /** An answer that is a live neighbour whenever there is one, and an unvisited one whenever there is one. */
  ghost predicate CarefulAnswer(adj: Adjacency, off: set<NodeId>, p: Packet, next: Option<NodeId>) {
    var live := ReachableNeighbors(adj, off, p.node);
    if next.None? then live == {} else next.value in live && (next.value in p.visited ==> live <= p.visited)
  }

  /** The neighbours a router considers: visited ones only as a last resort. */
  function Preferred(adj: Adjacency, off: set<NodeId>, p: Packet): set<NodeId> {
    var live := ReachableNeighbors(adj, off, p.node);
    if live - p.visited != {} then live - p.visited else live
  }

  lemma PreferredIsCareful(adj: Adjacency, off: set<NodeId>, p: Packet, next: Option<NodeId>)
    requires if next.None? then ReachableNeighbors(adj, off, p.node) == {} else next.value in Preferred(adj, off, p)
    ensures CarefulAnswer(adj, off, p, next)
  {
    var live := ReachableNeighbors(adj, off, p.node);
    if next.Some? && next.value in p.visited {
      assert live - p.visited == {};
      forall n | n in live ensures n in p.visited {
        assert n !in live - p.visited;
      }
    }
  }

  /** The first candidate with the best key, unless some key raises. */
  method BestBy(candidates: set<NodeId>, key: NodeId -> Option<real>) returns (best: NodeId, raised: bool)
    requires candidates != {}
    ensures raised <==> exists n :: n in candidates && key(n).None?
    ensures !raised ==> TopScored(candidates, key, best)
  {
    best := PickNode(candidates);
    raised := key(best).None?;
    var rest := candidates - {best};
    while rest != {} && !raised
      invariant rest <= candidates && best in candidates
      invariant raised ==> exists n :: n in candidates && key(n).None?
      invariant !raised ==> key(best).Some? && forall n :: n in candidates && n !in rest ==> key(n).Some?
      invariant !raised ==> forall n :: n in candidates && n !in rest ==> key(n).value <= key(best).value
    {
      var n := PickNode(rest);
      if key(n).None? {
        raised := true;
      } else if key(n).value > key(best).value {
        best := n;
      }
      rest := rest - {n};
    }
  }

  /** Every candidate has a key, and none a better one. */
  predicate TopScored(candidates: set<NodeId>, key: NodeId -> Option<real>, best: NodeId) {
    && best in candidates && (forall n :: n in candidates ==> key(n).Some?)
    && forall n :: n in candidates ==> key(n).value <= key(best).value
  }

  /** Does scoring the candidates raise? */
  predicate ScoringRaises(candidates: set<NodeId>, score: NodeId -> Option<real>) {
    exists n :: n in candidates && score(n).None?
  }

  // ---- hybrid and risk-aware routers ---------------------------------------------------------

  /** HybridRoutingScorer.choose, for any score; None stands for a score that raises. */
  method HybridNextHop(adj: Adjacency, off: set<NodeId>, p: Packet, score: NodeId -> Option<real>)
    returns (next: Option<NodeId>, raised: bool)
    ensures raised <==> ScoringRaises(Preferred(adj, off, p), score)
    ensures !raised ==> if next.None? then ReachableNeighbors(adj, off, p.node) == {}
                        else TopScored(Preferred(adj, off, p), score, next.value)
    ensures !raised ==> CarefulAnswer(adj, off, p, next)
  {
    next, raised := None, false;
    if ReachableNeighbors(adj, off, p.node) != {} {
      var best;
      best, raised := BestBy(Preferred(adj, off, p), score);
      next := Some(best);
    }
    if !raised {
      PreferredIsCareful(adj, off, p, next);
    }
  }

  /** A hop that keeps the packet's accumulated loss risk within the budget, or is its destination. */
  predicate Affordable(adj: Adjacency, p: Packet, budget: real, n: NodeId) {
    n in Neighbors(adj, p.node) && (1.0 - (1.0 - p.lossRisk) * (1.0 - adj[p.node][n].loss) <= budget || n == p.dst)
  }

  /** What RiskAwareHybridSolver compares: the affordable preferred hops, or all when none is affordable. */
  function Candidates(adj: Adjacency, off: set<NodeId>, p: Packet, budget: real): set<NodeId> {
    var viable := set n | n in Preferred(adj, off, p) && Affordable(adj, p, budget, n);
    if viable != {} then viable else Preferred(adj, off, p)
  }

  /** A hop over the budget is taken only when no preferred hop keeps to it. */
  lemma BudgetKept(adj: Adjacency, off: set<NodeId>, p: Packet, budget: real, n: NodeId)
    requires n in Candidates(adj, off, p, budget)
    ensures n in Preferred(adj, off, p)
    ensures Affordable(adj, p, budget, n) || forall k :: k in Preferred(adj, off, p) ==> !Affordable(adj, p, budget, k)
  {
    var viable := set k | k in Preferred(adj, off, p) && Affordable(adj, p, budget, k);
    forall k | k in Preferred(adj, off, p) && Affordable(adj, p, budget, k) ensures viable != {} {
      assert k in viable;
    }
  }

  /** The best-scored hop within the budget; a hop over it is answered only when no preferred hop is affordable. */
  method RiskAwareNextHop(adj: Adjacency, off: set<NodeId>, p: Packet, budget: real, score: NodeId -> Option<real>)
    returns (next: Option<NodeId>, raised: bool)
    ensures raised <==> ScoringRaises(Candidates(adj, off, p, budget), score)
    ensures !raised ==> if next.None? then ReachableNeighbors(adj, off, p.node) == {}
                        else TopScored(Candidates(adj, off, p, budget), score, next.value)
    ensures !raised && next.Some? && !Affordable(adj, p, budget, next.value) ==>
      forall n :: n in Preferred(adj, off, p) ==> !Affordable(adj, p, budget, n)
    ensures !raised ==> CarefulAnswer(adj, off, p, next)
  {
    hide Affordable;
    next, raised := None, false;
    if ReachableNeighbors(adj, off, p.node) != {} {
      var best;
      best, raised := BestBy(Candidates(adj, off, p, budget), score);
      next := Some(best);
      if !raised {
        BudgetKept(adj, off, p, budget, best);
      }
    }
    if !raised {
      PreferredIsCareful(adj, off, p, next);
    }
  }

  // ---- trust routers ---------------------------------------------------------------------------

  /** Higher trust first, then more progress, then the smaller id. */
  predicate Beats(trust: NodeId -> real, progress: NodeId -> real, a: NodeId, b: NodeId) {
    || trust(a) > trust(b)
    || (trust(a) == trust(b) && (progress(a) > progress(b) || (progress(a) == progress(b) && a < b)))
  }

  /** The answer of the EigenTrust and RepuLink routers. */
  ghost predicate TrustAnswer(adj: Adjacency, off: set<NodeId>, p: Packet, trust: NodeId -> real,
      progress: NodeId -> real, next: Option<NodeId>)
  {
    var live := ReachableNeighbors(adj, off, p.node);
    if live == {} then next == None
    else if p.dst in live then next == Some(p.dst)
    else && next.Some? && next.value in Preferred(adj, off, p)
         && forall n :: n in Preferred(adj, off, p) && n != next.value ==> Beats(trust, progress, next.value, n)
  }

  /** The answer does not depend on the order neighbours are listed in. */
  lemma TrustAnswerUnique(adj: Adjacency, off: set<NodeId>, p: Packet, trust: NodeId -> real, progress: NodeId -> real,
      a: Option<NodeId>, b: Option<NodeId>)
    requires TrustAnswer(adj, off, p, trust, progress, a) && TrustAnswer(adj, off, p, trust, progress, b)
    ensures a == b
  {
    if a.Some? && b.Some? {
      BeatsOneWay(trust, progress, a.value, b.value);
    }
  }

  lemma BeatsOneWay(trust: NodeId -> real, progress: NodeId -> real, a: NodeId, b: NodeId)
    ensures !(Beats(trust, progress, a, b) && Beats(trust, progress, b, a))
  {
  }

  lemma TrustIsCareful(adj: Adjacency, off: set<NodeId>, p: Packet, trust: NodeId -> real, progress: NodeId -> real,
      next: Option<NodeId>)
    requires TrustAnswer(adj, off, p, trust, progress, next) && p.dst !in p.visited
    ensures CarefulAnswer(adj, off, p, next)
  {
    if p.dst !in ReachableNeighbors(adj, off, p.node) {
      PreferredIsCareful(adj, off, p, next);
    }
  }

  method TrustNextHop(adj: Adjacency, off: set<NodeId>, p: Packet, trust: NodeId -> real, progress: NodeId -> real)
    returns (next: Option<NodeId>)
    ensures TrustAnswer(adj, off, p, trust, progress, next)
  {
    var neighbors := ReachableNeighbors(adj, off, p.node);
    if neighbors == {} {
      return None;
    }
    if p.dst in neighbors {
      return Some(p.dst);
    }
    neighbors := Preferred(adj, off, p);
    var best := PickNode(neighbors);
    var rest := neighbors - {best};
    while rest != {}
      invariant rest <= neighbors && best in neighbors && best !in rest
      invariant forall n :: n in neighbors && n !in rest && n != best ==> Beats(trust, progress, best, n)
    {
      var n := PickNode(rest);
      if Beats(trust, progress, n, best) {
        best := n;
      }
      rest := rest - {n};
    }
    next := Some(best);
  }
}
