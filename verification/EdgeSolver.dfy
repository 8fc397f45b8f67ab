/** The routers of aegis_router/solvers.py and repulink.py that carry state: the two trust routers over a
    shared ledger, and the edge-learning router with its durable memory. */
module EdgeSolver {
  import opened Network
  import opened Graph
  import opened Packets
  import opened Landmarks
  import opened Reputation
  import opened Selection
  import opened SparseVectors
  import opened StateKeys
  import EigenTrust
  import RepuLink

  /** The landmark or ring progress hint, as a function of the neighbour. */
  function ProgressOf(graph: P2PGraph, p: Packet): NodeId -> real
    reads graph
  {
    var adj, vec := graph.adj, graph.landmarkDist;
    (n: NodeId) => Hint(adj, vec, p, n)
  }

  function Hint(adj: Adjacency, vec: Option<Vectors>, p: Packet, n: NodeId): real {
    var r := ProgressDelta(adj, vec, p.node, n, p.dst);
    if r.Some? then r.value else 0.0
  }

  /** Does ranking the preferred neighbours raise, for want of landmarks? A neighbour dst is not ranked. */
  predicate RankingRaises(graph: P2PGraph, p: Packet)
    reads graph
  {
    && p.dst !in ReachableNeighbors(graph.adj, graph.offlineNodes, p.node)
    && exists n ::
         n in Preferred(graph.adj, graph.offlineNodes, p) &&
         ProgressDelta(graph.adj, graph.landmarkDist, p.node, n, p.dst).None?
  }

  /** With a landmark, or without any vectors, no hint raises. */
  lemma HintsNever(graph: P2PGraph, p: Packet, marks: seq<NodeId>, n: NodeId)
    requires graph.Valid() && p.node in graph.adj && p.dst in graph.adj && n in Neighbors(graph.adj, p.node)
    requires graph.landmarkDist.Some? ==> |marks| > 0 && AreVectors(graph.adj, marks, graph.landmarkDist.value)
    ensures ProgressDelta(graph.adj, graph.landmarkDist, p.node, n, p.dst).Some?
  {
    hide Undirected, AreVectors;
    if graph.landmarkDist.Some? {
      ProgressBounded(graph.adj, marks, graph.landmarkDist.value, p.node, n, p.dst);
    }
  }

  /** So ranking never raises either. */
  lemma RankingRaisesNever(graph: P2PGraph, p: Packet, marks: seq<NodeId>)
    requires graph.Valid() && p.node in graph.adj && p.dst in graph.adj
    requires graph.landmarkDist.Some? ==> |marks| > 0 && AreVectors(graph.adj, marks, graph.landmarkDist.value)
    ensures !RankingRaises(graph, p)
  {
    hide Undirected, AreVectors, ProgressDelta;
    forall n | n in Preferred(graph.adj, graph.offlineNodes, p)
      ensures ProgressDelta(graph.adj, graph.landmarkDist, p.node, n, p.dst).Some?
    {
      HintsNever(graph, p, marks, n);
    }
  }

  /** Nor does scoring, when a base score raises only where its progress hint does. */
  lemma ScoringRaisesNever(graph: P2PGraph, p: Packet, marks: seq<NodeId>, base: NodeId -> Option<real>, budget: real)
    requires graph.Valid() && p.node in graph.adj && p.dst in graph.adj
    requires graph.landmarkDist.Some? ==> |marks| > 0 && AreVectors(graph.adj, marks, graph.landmarkDist.value)
    requires forall n :: n in Neighbors(graph.adj, p.node) && base(n).None? ==>
      ProgressDelta(graph.adj, graph.landmarkDist, p.node, n, p.dst).None?
    ensures !ScoringRaises(Preferred(graph.adj, graph.offlineNodes, p), base)
    ensures !ScoringRaises(Candidates(graph.adj, graph.offlineNodes, p, budget), base)
  {
    hide Undirected, AreVectors, ProgressDelta;
    forall n | n in Neighbors(graph.adj, p.node)
      ensures ProgressDelta(graph.adj, graph.landmarkDist, p.node, n, p.dst).Some?
    {
      HintsNever(graph, p, marks, n);
    }
  }

  /** The answer of a trust router, unless ranking raises. */
  method RankedNextHop(graph: P2PGraph, p: Packet, trust: NodeId -> real) returns (next: Option<NodeId>, raised: bool)
    ensures raised <==> RankingRaises(graph, p)
    ensures !raised ==> TrustAnswer(graph.adj, graph.offlineNodes, p, trust, ProgressOf(graph, p), next)
    ensures !raised && p.dst !in p.visited ==> CarefulAnswer(graph.adj, graph.offlineNodes, p, next)
  {
    next, raised := None, RankingRaises(graph, p);
    if raised {
      return;
    }
    next := TrustNextHop(graph.adj, graph.offlineNodes, p, trust, ProgressOf(graph, p));
    if p.dst !in p.visited {
      TrustIsCareful(graph.adj, graph.offlineNodes, p, trust, ProgressOf(graph, p), next);
    }
  }

  class EigenTrustSolver {
    const ledger: EigenTrust.GlobalTrustLedger

    constructor (ledger: EigenTrust.GlobalTrustLedger)
      ensures this.ledger == ledger
    {
      this.ledger := ledger;
    }

    method NextHop(graph: P2PGraph, p: Packet) returns (next: Option<NodeId>, raised: bool)
      ensures raised <==> RankingRaises(graph, p)
      ensures !raised ==> TrustAnswer(graph.adj, graph.offlineNodes, p, Value(ledger.trust), ProgressOf(graph, p), next)
      ensures !raised && p.dst !in p.visited ==> CarefulAnswer(graph.adj, graph.offlineNodes, p, next)
    {
      next, raised := RankedNextHop(graph, p, Value(ledger.trust));
    }
  }

  class RepuLinkSolver {
    const ledger: RepuLink.RepuLinkLedger

    constructor (ledger: RepuLink.RepuLinkLedger)
      ensures this.ledger == ledger
    {
      this.ledger := ledger;
    }

    method NextHop(graph: P2PGraph, p: Packet) returns (next: Option<NodeId>, raised: bool)
      ensures raised <==> RankingRaises(graph, p)
      ensures !raised ==>
        TrustAnswer(graph.adj, graph.offlineNodes, p, Value(ledger.reputation), ProgressOf(graph, p), next)
      ensures !raised && p.dst !in p.visited ==> CarefulAnswer(graph.adj, graph.offlineNodes, p, next)
    {
      next, raised := RankedNextHop(graph, p, Value(ledger.reputation));
    }
  }

  // ---- trusted paths --------------------------------------------------------------------

  /** Limits on a relay's risk and on an edge's badness and receipts; all three are 0.5 by default. */
  datatype Thresholds = Thresholds(nodeRisk: real, edgeBadness: real, receiptSuccess: real)

  /** An edge with evidence, good enough for a trusted path. */
  predicate TrustedEdge(h: Thresholds, m: Memory, e: Edge)
    requires MemoryOk(m)
  {
    && e in m.edgeScores && m.edgeScores[e].ReceiptSuccessRate() >= h.receiptSuccess
    && m.edgeScores[e].counts.Badness() <= h.edgeBadness
  }

  /** A relay that is live, unvisited and not too risky. */
  predicate TrustedRelay(h: Thresholds, m: Memory, off: set<NodeId>, p: Packet, n: NodeId) {
    n !in p.visited && n !in off && Risk(m.peerRisk, n) <= h.nodeRisk
  }

  predicate TrustedTwo(h: Thresholds, m: Memory, adj: Adjacency, off: set<NodeId>, p: Packet, a: NodeId)
    requires MemoryOk(m)
  {
    && a in Neighbors(adj, p.node) && TrustedRelay(h, m, off, p, a) && p.dst in Neighbors(adj, a)
    && TrustedEdge(h, m, (p.node, a)) && TrustedEdge(h, m, (a, p.dst))
  }

  predicate TrustedThree(h: Thresholds, m: Memory, adj: Adjacency, off: set<NodeId>, p: Packet, a: NodeId, b: NodeId)
    requires MemoryOk(m)
  {
    && a in Neighbors(adj, p.node) && TrustedRelay(h, m, off, p, a)
    && b in Neighbors(adj, a) && b != p.node && TrustedRelay(h, m, off, p, b) && p.dst in Neighbors(adj, b)
    && TrustedEdge(h, m, (p.node, a)) && TrustedEdge(h, m, (a, b)) && TrustedEdge(h, m, (b, p.dst))
  }

  /** A trusted path from the packet's node to its destination over one or two relays. */
  ghost predicate TrustedPath(h: Thresholds, m: Memory, adj: Adjacency, off: set<NodeId>, p: Packet, path: seq<NodeId>)
    requires MemoryOk(m)
  {
    || (exists a :: path == [p.node, a, p.dst] && TrustedTwo(h, m, adj, off, p, a))
    || (exists a, b :: path == [p.node, a, b, p.dst] && TrustedThree(h, m, adj, off, p, a, b))
  }

  /** The path search answers with a link to the destination if there is one, and else with a trusted
      path that is as short as any, if there is one; with too little TTL or a dead destination it gives up. */
  ghost predicate TrustedAnswer(h: Thresholds, m: Memory, adj: Adjacency, off: set<NodeId>, p: Packet,
      found: Option<seq<NodeId>>)
    requires MemoryOk(m)
  {
    if p.ttl < 2 || p.dst in off then found == None
    else if p.dst in Neighbors(adj, p.node) then found == Some([p.node, p.dst])
    else if found.None? then forall path :: !TrustedPath(h, m, adj, off, p, path)
    else TrustedPath(h, m, adj, off, p, found.value) && forall path :: TrustedPath(h, m, adj, off, p, path) ==>
      |found.value| <= |path|
  }

  /** A path found is a live walk to the destination whose relays are unvisited. */
  lemma TrustedIsLive(h: Thresholds, m: Memory, adj: Adjacency, off: set<NodeId>, p: Packet, found: Option<seq<NodeId>>)
    requires MemoryOk(m) && TrustedAnswer(h, m, adj, off, p, found) && found.Some?
    ensures PathBetween(adj, off, found.value, p.node, p.dst) && 2 <= |found.value| <= 4
    ensures forall i :: 0 < i < |found.value| - 1 ==> found.value[i] !in p.visited
  {
    hide MemoryOk, TrustedEdge;
  }

  method TwoHopRelay(h: Thresholds, m: Memory, adj: Adjacency, off: set<NodeId>, p: Packet)
    returns (relay: Option<NodeId>)
    requires MemoryOk(m)
    ensures if relay.None? then forall a :: !TrustedTwo(h, m, adj, off, p, a)
      else TrustedTwo(h, m, adj, off, p, relay.value)
  {
    hide MemoryOk;
    var rest := Neighbors(adj, p.node);
    while rest != {}
      invariant forall a :: a in Neighbors(adj, p.node) && a !in rest ==> !TrustedTwo(h, m, adj, off, p, a)
    {
      var a := PickNode(rest);
      if TrustedTwo(h, m, adj, off, p, a) {
        return Some(a);
      }
      rest := rest - {a};
    }
    relay := None;
  }

  method SecondRelay(h: Thresholds, m: Memory, adj: Adjacency, off: set<NodeId>, p: Packet, a: NodeId)
    returns (relay: Option<NodeId>)
    requires MemoryOk(m)
    ensures if relay.None? then forall b :: !TrustedThree(h, m, adj, off, p, a, b)
      else TrustedThree(h, m, adj, off, p, a, relay.value)
  {
    hide MemoryOk;
    var rest := Neighbors(adj, a);
    while rest != {}
      invariant forall b :: b in Neighbors(adj, a) && b !in rest ==> !TrustedThree(h, m, adj, off, p, a, b)
    {
      var b := PickNode(rest);
      if TrustedThree(h, m, adj, off, p, a, b) {
        return Some(b);
      }
      rest := rest - {b};
    }
    relay := None;
  }

  method ThreeHopRelays(h: Thresholds, m: Memory, adj: Adjacency, off: set<NodeId>, p: Packet)
    returns (relays: Option<(NodeId, NodeId)>)
    requires MemoryOk(m)
    ensures if relays.None? then forall a, b :: !TrustedThree(h, m, adj, off, p, a, b)
            else TrustedThree(h, m, adj, off, p, relays.value.0, relays.value.1)
  {
    hide MemoryOk;
    var rest := Neighbors(adj, p.node);
    while rest != {}
      invariant forall a, b :: a in Neighbors(adj, p.node) && a !in rest ==> !TrustedThree(h, m, adj, off, p, a, b)
    {
      var a := PickNode(rest);
      var b := SecondRelay(h, m, adj, off, p, a);
      if b.Some? {
        return Some((a, b.value));
      }
      rest := rest - {a};
    }
    relays := None;
  }

  /** find_trusted_path. */
  method FindTrustedPath(h: Thresholds, m: Memory, adj: Adjacency, off: set<NodeId>, p: Packet)
    returns (found: Option<seq<NodeId>>)
    requires MemoryOk(m)
    ensures TrustedAnswer(h, m, adj, off, p, found)
  {
    hide MemoryOk, TrustedTwo, TrustedThree;
    if p.ttl < 2 || p.dst in off {
      return None;
    }
    if p.dst in Neighbors(adj, p.node) {
      return Some([p.node, p.dst]);
    }
    var a := TwoHopRelay(h, m, adj, off, p);
    if a.Some? {
      return Some([p.node, a.value, p.dst]);
    }
    var ab := ThreeHopRelays(h, m, adj, off, p);
    if ab.Some? {
      return Some([p.node, ab.value.0, ab.value.1, p.dst]);
    }
    found := None;
  }

  // ---- the edge learner ----------------------------------------------------------------------

  datatype Weights = Weights(reputationPenalty: real, learnedPenalty: real, edgePenalty: real, receiptWeight: real)

  /** A base score less the penalties for risk and badness, and more by the margin of success over an even chance. */
  function Penalized(k: Weights, base: real, risk: real, badness: real, edgeBadness: real, margin: real): real {
    var score :=
      base - By(risk, k.reputationPenalty) - By(badness, k.learnedPenalty) - By(edgeBadness, k.edgePenalty);
    if k.receiptWeight > 0.0 then score + By(margin, k.receiptWeight) else score
  }

  /** The score of a peer over an edge. */
  function Scored(k: Weights, base: real, risk: real, peer: Counters, edge: EdgeScore): real
    requires peer.NonNegative() && edge.NonNegative()
  {
    Penalized(k, base, risk, peer.Badness(), edge.counts.Badness(), edge.ReceiptSuccessRate() - 0.5)
  }

  /** _score through all the learner's parents, over any base score; it raises when the base score does. */
  function LearnedScore(k: Weights, m: Memory, base: NodeId -> Option<real>, from: NodeId, n: NodeId): (r: Option<real>)
    requires MemoryOk(m)
    ensures r.None? <==> base(n).None?
  {
    PeerOk(m, n);
    EdgeNonNegative(m, (from, n));
    if base(n).None? then None
    else Some(Scored(k, base(n).value, Risk(m.peerRisk, n), Peer(m.peerScores, n), EdgeOf(m.edgeScores, (from, n))))
  }

  /** Looking an entry up changes no score. */
  lemma LookupKeepsScores(k: Weights, m: Memory, base: NodeId -> Option<real>, from: NodeId, n: NodeId, raises: bool,
      other: NodeId)
    requires MemoryOk(m) && MemoryOk(LookedUp(m, from, n, raises))
    ensures LearnedScore(k, LookedUp(m, from, n, raises), base, from, other) == LearnedScore(k, m, base, from, other)
  {
    hide Scored, MemoryOk, Counters.NonNegative, EdgeScore.NonNegative;
    var m' := LookedUp(m, from, n, raises);
    assert Peer(m'.peerScores, other) == Peer(m.peerScores, other);
    assert EdgeOf(m'.edgeScores, (from, other)) == EdgeOf(m.edgeScores, (from, other));
  }

  /** The lookups of scoring some hops in turn. */
  function LookedUpAll(m: Memory, from: NodeId, ns: seq<NodeId>, base: NodeId -> Option<real>): Memory {
    if |ns| == 0 then m
    else
      var n := ns[|ns| - 1];
      LookedUp(LookedUpAll(m, from, ns[..|ns| - 1], base), from, n, base(n).None?)
  }

  /** The answer of the risk-aware selection under the learned scores. */
  ghost predicate LearnedAnswer(k: Weights, m: Memory, adj: Adjacency, off: set<NodeId>, p: Packet,
      base: NodeId -> Option<real>, next: Option<NodeId>)
    requires MemoryOk(m)
  {
    if next.None? then ReachableNeighbors(adj, off, p.node) == {}
    else TopScored(Candidates(adj, off, p, m.riskBudget), n => LearnedScore(k, m, base, p.node, n), next.value)
  }

  /** Does the edge router fall back to scores, and one of them raise? */
  ghost predicate EdgeRaises(h: Thresholds, trustPaths: bool, m: Memory, adj: Adjacency, off: set<NodeId>, p: Packet,
      base: NodeId -> Option<real>)
    requires MemoryOk(m)
  {
    && !(trustPaths && exists path :: TrustedAnswer(h, m, adj, off, p, Some(path)))
    && ScoringRaises(Candidates(adj, off, p, m.riskBudget), base)
  }

  /** The edge router's answer: the first hop of a trusted path, or else the best-scored candidate. */
  ghost predicate EdgeAnswer(k: Weights, h: Thresholds, trustPaths: bool, m: Memory, adj: Adjacency, off: set<NodeId>,
      p: Packet, base: NodeId -> Option<real>, next: Option<NodeId>)
    requires MemoryOk(m)
  {
    if trustPaths && exists path :: TrustedAnswer(h, m, adj, off, p, Some(path))
    then exists path :: TrustedAnswer(h, m, adj, off, p, Some(path)) && |path| >= 2 && next == Some(path[1])
    else LearnedAnswer(k, m, adj, off, p, base, next)
  }

  lemma EdgeIsCareful(k: Weights, h: Thresholds, trustPaths: bool, m: Memory, adj: Adjacency, off: set<NodeId>,
      p: Packet, base: NodeId -> Option<real>, next: Option<NodeId>)
    requires MemoryOk(m) && EdgeAnswer(k, h, trustPaths, m, adj, off, p, base, next) && p.dst !in p.visited
    ensures CarefulAnswer(adj, off, p, next)
  {
    hide MemoryOk, TrustedAnswer;
    if trustPaths && exists path :: TrustedAnswer(h, m, adj, off, p, Some(path)) {
      var path :| TrustedAnswer(h, m, adj, off, p, Some(path)) && |path| >= 2 && next == Some(path[1]);
      TrustedIsLive(h, m, adj, off, p, Some(path));
      assert path[1] in ReachableNeighbors(adj, off, path[0]);
    } else {
      PreferredIsCareful(adj, off, p, next);
    }
  }

  method WriteTable<K(==), V>(m: map<K, V>, text: K -> string) returns (f: map<string, V>)
    requires forall j, k :: j in m && k in m && text(j) == text(k) ==> j == k
    ensures Written(m, f, text)
  {
    f := map[];
    var rest := m.Keys;
    while rest != {}
      invariant rest <= m.Keys
      invariant forall k :: k in m && k !in rest ==> text(k) in f && f[text(k)] == m[k]
      invariant forall t :: t in f ==> exists k :: k in m && k !in rest && t == text(k)
    {
      var k := PickNode(rest);
      f := f[text(k) := m[k]];
      rest := rest - {k};
    }
  }

  /** An entry has no key, or is not usable once decayed. */
  ghost predicate RaisesIn<K, V>(f: map<string, V>, parse: string -> Option<K>, decay: V -> V, usable: V -> bool) {
    exists t :: t in f && (parse(t).None? || !usable(decay(f[t])))
  }

  /** Reads a table over another one; an entry without a key, or not usable once decayed, raises. */
  method ReadTable<K(==, !new), V>(f: map<string, V>, before: map<K, V>, parse: string -> Option<K>, decay: V -> V,
      usable: V -> bool) returns (m: map<K, V>, named: set<K>, raised: bool)
    ensures raised <==> RaisesIn(f, parse, decay, usable)
    ensures !raised ==> Read(f, before, m, parse, decay) && named == Named(f, parse)
    ensures !raised ==> forall k :: k in named ==> usable(m[k])
  {
    m, named, raised := before, {}, false;
    var rest := f.Keys;
    while rest != {}
      invariant rest <= f.Keys && m.Keys == before.Keys + named
      invariant forall t :: t in f && t !in rest ==>
        parse(t).Some? && parse(t).value in named && usable(decay(f[t]))
      invariant forall k :: k in named ==>
        usable(m[k]) && exists t :: t in f && parse(t) == Some(k) && m[k] == decay(f[t])
      invariant forall k :: k in before && k !in named ==> m[k] == before[k]
    {
      var t := PickNode(rest);
      var k := parse(t);
      if k.None? || !usable(decay(f[t])) {
        raised := true;
        return;
      }
      m := m[k.value := decay(f[t])];
      named := named + {k.value};
      rest := rest - {t};
    }
    assert named == Named(f, parse);
  }

  /** Adds an observation to the counters of a peer or an edge. */
  method Tallied(c: Counters, o: Observation) returns (r: Counters)
    ensures r == c.Plus(Gain(o))
  {
    r := c;
    if o.delivered {
      r := r.(delivered := r.delivered + 1.0);
    }
    if o.reason == Some(NodeDown) {
      r := r.(nodeDown := r.nodeDown + 1.0);
    } else if o.dropped {
      r := r.(drops := r.drops + 1.0);
    }
    if o.reason == Some(LinkLoss) {
      r := r.(linkLosses := r.linkLosses + 1.0);
    } else if o.reason == Some(Loop) {
      r := r.(loops := r.loops + 1.0);
    } else if o.reason == Some(TtlExpired) {
      r := r.(ttlExpired := r.ttlExpired + 1.0);
    }
  }

  predicate Rated(c: Counters) { c.HasBadness() }
  predicate Anything(x: EdgeScore) { true }

  /** A key of the file is malformed, or the badness of a peer is undefined. */
  ghost predicate LoadRaises(s: Settings, f: Saved) {
    || RaisesIn(f.peers, ParseInt, Aged(s.stateDecay), Rated)
    || RaisesIn(f.edges, ParseEdge, AgedEdge(s.stateDecay), Anything)
  }

  class EdgeLearningSolver {
    const settings: Settings
    const weights: Weights
    const thresholds: Thresholds
    const useTrustedPath: bool
    var riskBudget: real
    var recentDrops: seq<bool>
    var peerRisk: map<NodeId, real>
    var peerScores: Peers
    var edgeScores: Edges

    function Memory(): Memory
      reads this
    {
      Reputation.Memory(riskBudget, recentDrops, peerRisk, peerScores, edgeScores)
    }

    ghost predicate Valid()
      reads this
    {
      SettingsOk(settings) && MemoryOk(Memory())
    }

    /** A solver without a state file yet. */
    constructor (settings: Settings, weights: Weights, thresholds: Thresholds, useTrustedPath: bool, riskBudget: real)
      requires SettingsOk(settings)
      ensures Valid() && Memory() == Life(settings, riskBudget, [])
      ensures this.settings == settings && this.weights == weights && this.thresholds == thresholds
      ensures this.useTrustedPath == useTrustedPath
    {
      this.settings, this.weights, this.thresholds := settings, weights, thresholds;
      this.useTrustedPath, this.riskBudget := useTrustedPath, riskBudget;
      recentDrops, peerRisk, peerScores, edgeScores := [], map[], map[], map[];
    }

    /** Writes the ledgers under text keys. */
    method Save() returns (file: Saved)
      requires Valid()
      ensures SavedAs(Memory(), file)
    {
      hide MemoryOk, IntText, EdgeText, ParseInt, ParseEdge;
      forall n ensures ParseInt(IntText(n)) == Some(n) { IntRoundTrip(n); }
      forall e: Edge ensures ParseEdge(EdgeKey(e)) == Some(e) { EdgeRoundTrip(e.0, e.1); }
      var peers := WriteTable(peerScores, IntText);
      var edges := WriteTable(edgeScores, EdgeKey);
      file := Saved(riskBudget, peers, edges);
    }

    /** Reads a state file over what the solver already has. A malformed key raises, and so does a peer whose
        decayed counters are so negative that its badness is undefined. */
    method Load(file: Saved) returns (raised: bool)
      requires Valid()
      modifies this
      ensures raised <==> LoadRaises(settings, file)
      ensures !raised ==> LoadedFrom(settings, file, old(Memory()), Memory())
      ensures !raised && SavedOk(file) ==> Valid()
    {
      hide ParseInt, ParseEdge, Counters.Badness, Counters.HasBadness, Counters.Times, Read, SavedOk, MemoryOk, Named,
           LoadedFrom, RaisesIn;
      ghost var m := Memory();
      riskBudget := file.riskBudget;
      var peers, edges, loaded, changed;
      peers, loaded, raised := ReadTable(file.peers, peerScores, ParseInt, Aged(settings.stateDecay), Rated);
      if raised {
        return;
      }
      edges, changed, raised := ReadTable(file.edges, edgeScores, ParseEdge, AgedEdge(settings.stateDecay), Anything);
      if raised {
        return;
      }
      ReadKeys(file.peers, peerScores, peers, ParseInt, Aged(settings.stateDecay));
      peerScores, edgeScores := peers, edges;
      RatedPeers(peers, loaded);
      peerRisk := map n | n in peerRisk.Keys + loaded :: if n in loaded then peers[n].Badness() else peerRisk[n];
      LoadedIs(settings, file, m, Memory(), loaded);
      if SavedOk(file) {
        LoadedNonNegative(settings, file, m, peers, edges);
        LoadedOk(m, Memory(), loaded);
      }
    }

    /** observe_result, its parents' parts first. */
    method ObserveResult(o: Observation)
      requires Valid()
      modifies this
      ensures Valid() && Memory() == Observed(settings, old(Memory()), o)
    {
      hide MemoryOk, Counters.Badness, Counters.Plus, CountTrue;
      ghost var m := Memory();
      ObservedOk(settings, m, o);
      PeerOk(m, o.neighbor);
      var n := o.neighbor;
      var ewma := EwmaRisk(settings, Risk(peerRisk, n), o);
      recentDrops := Pushed(recentDrops, o.dropped, settings.windowSize);
      riskBudget := AdaptedBudget(settings, riskBudget, recentDrops);
      PlusNonNegative(Peer(peerScores, n), o);
      var score := Tallied(Peer(peerScores, n), o);
      peerScores := peerScores[n := score];
      peerRisk := peerRisk[n := Blend(ewma, score)];
      if o.from.Some? {
        var e := (o.from.value, n);
        var edge := EdgeOf(edgeScores, e);
        var counts := Tallied(edge.counts, o);
        var confirmed := edge.receiptConfirmed + if o.receiptConfirmed then 1.0 else 0.0;
        edgeScores := edgeScores[e := EdgeScore(counts, confirmed)];
      }
    }

    /** Looks the entries of a hop up, which makes them; None stands for a base score that raises, after which
        only the edge has been looked up. */
    method ScoreHop(from: NodeId, n: NodeId, base: NodeId -> Option<real>) returns (score: Option<real>)
      requires Valid()
      modifies this`peerScores, this`edgeScores
      ensures Valid() && Memory() == LookedUp(old(Memory()), from, n, base(n).None?)
      ensures score == LearnedScore(weights, old(Memory()), base, from, n)
    {
      hide LearnedScore, MemoryOk;
      ghost var m := Memory();
      LookedUpOk(m, from, n, base(n).None?);
      score := LearnedScore(weights, Memory(), base, from, n);
      edgeScores := edgeScores[(from, n) := EdgeOf(edgeScores, (from, n))];
      if score.Some? {
        peerScores := peerScores[n := Peer(peerScores, n)];
      }
    }

    /** next_hop: a trusted path's first hop, or else the candidate with the best learned score. It raises exactly
        when it falls back to scores and one of them does. The candidates scored are the only entries the call can
        have made. */
    method NextHop(graph: P2PGraph, p: Packet, base: NodeId -> Option<real>)
      returns (next: Option<NodeId>, raised: bool, ghost scored: seq<NodeId>)
      requires Valid() && graph.Valid()
      modifies this`peerScores, this`edgeScores
      ensures Valid() && Memory() == LookedUpAll(old(Memory()), p.node, scored, base)
      ensures raised <==>
        EdgeRaises(thresholds, useTrustedPath, old(Memory()), graph.adj, graph.offlineNodes, p, base)
      ensures !raised ==>
        EdgeAnswer(weights, thresholds, useTrustedPath, old(Memory()), graph.adj, graph.offlineNodes, p, base, next)
      ensures forall n :: n in scored ==> n in Candidates(graph.adj, graph.offlineNodes, p, riskBudget)
      ensures !raised && p.dst !in p.visited ==> CarefulAnswer(graph.adj, graph.offlineNodes, p, next)
    {
      hide MemoryOk, TrustedAnswer, LearnedScore, CarefulAnswer, LearnedAnswer, Candidates;
      ghost var m := Memory();
      raised, scored := false, [];
      var found := None;
      if useTrustedPath {
        found := FindTrustedPath(thresholds, Memory(), graph.adj, graph.offlineNodes, p);
      }
      if found.Some? {
        TrustedIsLive(thresholds, m, graph.adj, graph.offlineNodes, p, found);
        next := Some(found.value[1]);
      } else {
        NoTrustedPath(thresholds, useTrustedPath, m, graph.adj, graph.offlineNodes, p, found);
        next, raised, scored := BestScored(graph, p, base);
      }
      if !raised && p.dst !in p.visited {
        EdgeIsCareful(weights, thresholds, useTrustedPath, m, graph.adj, graph.offlineNodes, p, base, next);
      }
    }

    /** The risk-aware selection under the learned scores. */
    method BestScored(graph: P2PGraph, p: Packet, base: NodeId -> Option<real>)
      returns (next: Option<NodeId>, raised: bool, ghost scored: seq<NodeId>)
      requires Valid()
      modifies this`peerScores, this`edgeScores
      ensures Valid() && Memory() == LookedUpAll(old(Memory()), p.node, scored, base)
      ensures raised <==> ScoringRaises(Candidates(graph.adj, graph.offlineNodes, p, riskBudget), base)
      ensures !raised ==> LearnedAnswer(weights, old(Memory()), graph.adj, graph.offlineNodes, p, base, next)
      ensures forall n :: n in scored ==> n in Candidates(graph.adj, graph.offlineNodes, p, riskBudget)
    {
      hide MemoryOk, LearnedScore, LookedUp, Affordable;
      ghost var m := Memory();
      next, raised, scored := None, false, [];
      if ReachableNeighbors(graph.adj, graph.offlineNodes, p.node) == {} {
        return;
      }
      var candidates := Candidates(graph.adj, graph.offlineNodes, p, riskBudget);
      hide Candidates;
      ghost var key := n => LearnedScore(weights, m, base, p.node, n);
      var rest, best := candidates, 0.0;
      while rest != {}
        invariant Valid() && Memory() == LookedUpAll(m, p.node, scored, base)
        invariant rest <= candidates && (rest == candidates || next.Some?)
        invariant forall n :: n in scored ==> n in candidates
        invariant forall n :: LearnedScore(weights, Memory(), base, p.node, n) == key(n)
        invariant next.Some? ==> next.value in candidates && key(next.value) == Some(best)
        invariant forall n :: n in candidates && n !in rest ==> key(n).Some? && key(n).value <= best
      {
        var n := PickNode(rest);
        ghost var before, init := Memory(), scored;
        var score := ScoreHop(p.node, n, base);
        scored := scored + [n];
        assert scored[..|init|] == init;
        if score.None? {
          raised := true;
          return;
        }
        forall k ensures LearnedScore(weights, Memory(), base, p.node, k) == key(k) {
          LookupKeepsScores(weights, before, base, p.node, n, false, k);
        }
        if next.None? || score.value > best {
          next, best := Some(n), score.value;
        }
        rest := rest - {n};
      }
      assert forall n :: n in candidates ==> (key(n).None? <==> base(n).None?);
    }
  }

  lemma NoTrustedPath(h: Thresholds, trustPaths: bool, m: Memory, adj: Adjacency, off: set<NodeId>, p: Packet,
      found: Option<seq<NodeId>>)
    requires MemoryOk(m) && found.None? && (trustPaths ==> TrustedAnswer(h, m, adj, off, p, found))
    ensures !(trustPaths && exists path :: TrustedAnswer(h, m, adj, off, p, Some(path)))
  {
  }

  lemma RatedPeers(peers: Peers, loaded: set<NodeId>)
    requires loaded <= peers.Keys && forall n :: n in loaded ==> Rated(peers[n])
    ensures forall n :: n in loaded ==> peers[n].HasBadness()
  {
  }

  lemma LoadedIs(s: Settings, f: Saved, m: Memory, m': Memory, loaded: set<NodeId>)
    requires m'.riskBudget == f.riskBudget && m'.recentDrops == m.recentDrops && loaded == Named(f.peers, ParseInt)
    requires Read(f.peers, m.peerScores, m'.peerScores, ParseInt, Aged(s.stateDecay))
    requires Read(f.edges, m.edgeScores, m'.edgeScores, ParseEdge, AgedEdge(s.stateDecay))
    requires loaded <= m'.peerScores.Keys && m'.peerRisk.Keys == m.peerRisk.Keys + loaded
    requires forall n :: n in loaded ==> m'.peerScores[n].HasBadness() && m'.peerRisk[n] == m'.peerScores[n].Badness()
    requires forall n :: n in m'.peerRisk && n !in loaded ==> m'.peerRisk[n] == m.peerRisk[n]
    ensures LoadedFrom(s, f, m, m')
  {
    hide Read, Named, ParseInt, ParseEdge, Counters.Badness, Counters.HasBadness;
  }

  /** A state file with counters that a solver can have written. */
  ghost predicate SavedOk(f: Saved) {
    (forall t :: t in f.peers ==> f.peers[t].NonNegative()) && forall t :: t in f.edges ==> f.edges[t].NonNegative()
  }

  lemma ReadKeys<K(!new), V>(f: map<string, V>, before: map<K, V>, m: map<K, V>, parse: string -> Option<K>,
      decay: V -> V)
    requires Read(f, before, m, parse, decay)
    ensures m.Keys == before.Keys + Named(f, parse)
  {
  }

  lemma LoadedNonNegative(s: Settings, f: Saved, m: Memory, peers: Peers, edges: Edges)
    requires MemoryOk(m) && SavedOk(f) && s.stateDecay >= 0.0
    requires Read(f.peers, m.peerScores, peers, ParseInt, Aged(s.stateDecay))
    requires Read(f.edges, m.edgeScores, edges, ParseEdge, AgedEdge(s.stateDecay))
    ensures (forall n :: n in peers ==> peers[n].NonNegative()) && forall e :: e in edges ==> edges[e].NonNegative()
  {
    hide Counters.NonNegative, Counters.Times, ParseInt, ParseEdge, Named;
    forall n | n in peers ensures peers[n].NonNegative() {
      if n in Named(f.peers, ParseInt) {
        var t :| t in f.peers && ParseInt(t) == Some(n) && peers[n] == Aged(s.stateDecay)(f.peers[t]);
        TimesNonNegative(f.peers[t], s.stateDecay);
      } else {
        assert n in m.peerScores;
      }
    }
    forall e | e in edges ensures edges[e].NonNegative() {
      if e in Named(f.edges, ParseEdge) {
        var t :| t in f.edges && ParseEdge(t) == Some(e) && edges[e] == AgedEdge(s.stateDecay)(f.edges[t]);
        TimesNonNegative(f.edges[t].counts, s.stateDecay);
        ProductNonNegative(f.edges[t].receiptConfirmed, s.stateDecay);
      } else {
        assert e in m.edgeScores;
      }
    }
  }

  lemma LoadedOk(m: Memory, m': Memory, loaded: set<NodeId>)
    requires MemoryOk(m) && loaded <= m'.peerScores.Keys && m'.peerRisk.Keys == m.peerRisk.Keys + loaded
    requires (forall n :: n in m'.peerScores ==> m'.peerScores[n].NonNegative())
    requires forall e :: e in m'.edgeScores ==> m'.edgeScores[e].NonNegative()
    requires forall n :: n in loaded ==> m'.peerScores[n].HasBadness() && m'.peerRisk[n] == m'.peerScores[n].Badness()
    requires forall n :: n in m'.peerRisk && n !in loaded ==> m'.peerRisk[n] == m.peerRisk[n]
    ensures MemoryOk(m')
  {
    hide Counters.Badness, Counters.NonNegative;
    forall n | n in m'.peerRisk ensures 0.0 <= m'.peerRisk[n] <= 1.0 {
      if n in loaded {
        BadnessBounds(m'.peerScores[n]);
      } else {
        assert n in m.peerRisk;
      }
    }
  }

  lemma SavedNonNegative(m: Memory, f: Saved)
    requires MemoryOk(m) && SavedAs(m, f)
    ensures SavedOk(f)
  {
    hide Counters.NonNegative, IntText, EdgeText;
    forall t | t in f.peers ensures f.peers[t].NonNegative() {
      var n :| n in m.peerScores && t == IntText(n);
    }
    forall t | t in f.edges ensures f.edges[t].NonNegative() {
      var e :| e in m.edgeScores && t == EdgeKey(e);
    }
  }

  /** Keys that were saved never raise. */
  lemma SavedParses(s: Settings, m: Memory, f: Saved)
    requires SavedAs(m, f)
    requires MemoryOk(m) && s.stateDecay >= 0.0
    ensures !LoadRaises(s, f)
  {
    hide Counters.Times, Counters.HasBadness, Counters.NonNegative, MemoryOk, IntText, EdgeText, ParseInt, ParseEdge;
    forall t | t in f.peers ensures ParseInt(t).Some? && Rated(Aged(s.stateDecay)(f.peers[t])) {
      var n :| n in m.peerScores && t == IntText(n);
      IntRoundTrip(n);
      PeerOk(m, n);
      TimesNonNegative(f.peers[t], s.stateDecay);
      BadnessBounds(f.peers[t].Times(s.stateDecay));
    }
    forall t | t in f.edges ensures ParseEdge(t).Some? {
      var e :| e in m.edgeScores && t == EdgeKey(e);
      EdgeRoundTrip(e.0, e.1);
    }
  }

  /** The end of one run and the start of the next: save, then load into a new solver. */
  method Restart(solver: EdgeLearningSolver, riskBudget: real) returns (next: EdgeLearningSolver)
    requires solver.Valid()
    ensures fresh(next) && next.Valid() && next.settings == solver.settings
    ensures next.weights == solver.weights && next.thresholds == solver.thresholds
    ensures next.useTrustedPath == solver.useTrustedPath
    ensures next.Memory() == Restarted(solver.settings, solver.Memory())
  {
    hide MemoryOk, SavedAs, LoadedFrom, SavedOk, LoadRaises, Restarted;
    var file := solver.Save();
    SavedNonNegative(solver.Memory(), file);
    SavedParses(solver.settings, solver.Memory(), file);
    next := new EdgeLearningSolver(solver.settings, solver.weights, solver.thresholds, solver.useTrustedPath,
      riskBudget);
    LifeStart(solver.settings, riskBudget);
    var raised := next.Load(file);
    RestartRoundTrip(solver.settings, riskBudget, solver.Memory(), file, next.Memory());
  }
}
