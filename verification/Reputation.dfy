/** What the learning solvers of aegis_router/solvers.py remember: an aggregate per peer and a ledger
    per directed edge, kept in step across observations, score lookups and restarts. */
module Reputation {
  import opened Network
  import opened Packets
  import opened StateKeys
  import opened Reals

  function By(x: real, k: real): real { x * k }

  /** The outcome counters that PeerScore and EdgeScore share. */
  datatype Counters = Counters(delivered: real, drops: real, sybilTouches: real, linkLosses: real, loops: real,
      ttlExpired: real, nodeDown: real)
  {
    function Plus(c: Counters): Counters {
      Counters(delivered + c.delivered, drops + c.drops, sybilTouches + c.sybilTouches, linkLosses + c.linkLosses,
               loops + c.loops, ttlExpired + c.ttlExpired, nodeDown + c.nodeDown)
    }

    function Times(k: real): Counters {
      Counters(By(delivered, k), By(drops, k), By(sybilTouches, k), By(linkLosses, k), By(loops, k), By(ttlExpired, k),
               By(nodeDown, k))
    }

    predicate NonNegative() {
      && delivered >= 0.0 && drops >= 0.0 && sybilTouches >= 0.0
      && linkLosses >= 0.0 && loops >= 0.0 && ttlExpired >= 0.0
      && nodeDown >= 0.0
    }

    function Weighted(): real {
      drops + 0.35 * linkLosses + 0.5 * loops + 0.25 * ttlExpired + 0.05 * nodeDown
    }

    /** The badness is defined; for non-negative counters it always is. */
    predicate HasBadness() {
      delivered + drops + 8.0 != 0.0
    }

    /** Smoothed: few observations leave it near 0. */
    function Badness(): real
      requires HasBadness()
    {
      var b := Weighted() / (delivered + drops + 8.0);
      if b < 1.0 then b else 1.0
    }
  }

  const ZERO := Counters(0.0, 0.0, 0.0, 0.0, 0.0, 0.0, 0.0)

  datatype EdgeScore = EdgeScore(counts: Counters, receiptConfirmed: real) {
    predicate NonNegative() {
      counts.NonNegative() && receiptConfirmed >= 0.0
    }

    function ReceiptSuccessRate(): real
      requires NonNegative()
    {
      (receiptConfirmed + 1.0) / (receiptConfirmed + counts.drops + 2.0)
    }

    function Decayed(k: real): EdgeScore {
      EdgeScore(counts.Times(k), By(receiptConfirmed, k))
    }
  }

  type Peers = map<NodeId, Counters>
  type Edges = map<Edge, EdgeScore>

  datatype Memory = Memory(riskBudget: real, recentDrops: seq<bool>, peerRisk: map<NodeId, real>, peerScores: Peers,
      edgeScores: Edges)

  datatype Settings = Settings(reputationDecay: real, maxBudget: real, adaptStep: real, windowSize: nat,
      dropThreshold: real, stateDecay: real)

  /** What the state file holds. */
  datatype Saved = Saved(riskBudget: real, peers: map<string, Counters>, edges: map<string, EdgeScore>)

  function Risk(m: map<NodeId, real>, n: NodeId): real { if n in m then m[n] else 0.0 }
  function Peer(m: Peers, n: NodeId): Counters { if n in m then m[n] else ZERO }
  function EdgeOf(m: Edges, e: Edge): EdgeScore { if e in m then m[e] else EdgeScore(ZERO, 0.0) }

  // ---- one observation ---------------------------------------------------------------

  /** What an observation adds to the counters of a peer, or of an edge. */
  function Gain(o: Observation): Counters {
    Counters(
      if o.delivered then 1.0 else 0.0,
      if o.dropped && o.reason != Some(NodeDown) then 1.0 else 0.0,
      0.0,
      if o.reason == Some(LinkLoss) then 1.0 else 0.0,
      if o.reason == Some(Loop) then 1.0 else 0.0,
      if o.reason == Some(TtlExpired) then 1.0 else 0.0,
      if o.reason == Some(NodeDown) then 1.0 else 0.0)
  }

  /** RiskAwareHybridSolver: the decayed risk moves by a signal and stays in [0, 1]. */
  function EwmaRisk(s: Settings, before: real, o: Observation): real {
    var signal := if o.reason == Some(NodeDown) then 0.15 else if o.dropped then 1.0 else if o.delivered then -0.15
      else 0.0;
    Max(0.0, Min(1.0, before * s.reputationDecay + signal))
  }

  /** A bounded window: the oldest flag falls out. */
  function Pushed(window: seq<bool>, flag: bool, size: nat): seq<bool> {
    var w := window + [flag];
    if |w| > size then w[|w| - size..] else w
  }

  function CountTrue(window: seq<bool>): nat {
    if |window| == 0 then 0 else CountTrue(window[..|window| - 1]) + if window[|window| - 1] then 1 else 0
  }

  predicate Relaxes(s: Settings, window: seq<bool>)
    requires s.windowSize > 0
  {
    |window| >= s.windowSize && CountTrue(window) as real / s.windowSize as real > s.dropThreshold
  }

  /** AdaptiveRiskSolver: too many drops in a full window relax the budget. */
  function AdaptedBudget(s: Settings, budget: real, window: seq<bool>): real
    requires s.windowSize > 0
  {
    if Relaxes(s, window) then Min(s.maxBudget, budget + s.adaptStep) else budget
  }

  ghost predicate MemoryOk(m: Memory) {
    && (forall n :: n in m.peerRisk ==> 0.0 <= m.peerRisk[n] <= 1.0)
    && (forall n :: n in m.peerScores ==> m.peerScores[n].NonNegative())
    && (forall e :: e in m.edgeScores ==> m.edgeScores[e].NonNegative())
  }

  lemma PeerOk(m: Memory, n: NodeId)
    requires MemoryOk(m)
    ensures Peer(m.peerScores, n).NonNegative()
  {
  }

  function Bumped(m: Edges, e: Edge, o: Observation): EdgeScore {
    var before := EdgeOf(m, e);
    EdgeScore(before.counts.Plus(Gain(o)), before.receiptConfirmed + if o.receiptConfirmed then 1.0 else 0.0)
  }

  /** Half the fast in-run risk, half the durable evidence. */
  function Blend(ewma: real, counts: Counters): real
    requires counts.NonNegative()
  {
    0.5 * (ewma + counts.Badness())
  }

  /** observe_result of the edge learner, with all its parents' parts. */
  function Observed(s: Settings, m: Memory, o: Observation): Memory
    requires s.windowSize > 0 && MemoryOk(m)
  {
    var n, window := o.neighbor, Pushed(m.recentDrops, o.dropped, s.windowSize);
    PeerOk(m, n);
    var counts := Peer(m.peerScores, n).Plus(Gain(o));
    Memory(AdaptedBudget(s, m.riskBudget, window), window,
           m.peerRisk[n := Blend(EwmaRisk(s, Risk(m.peerRisk, n), o), counts)],
           m.peerScores[n := counts],
           if o.from.None? then m.edgeScores
             else m.edgeScores[(o.from.value, n) := Bumped(m.edgeScores, (o.from.value, n), o)])
  }

  /** Scoring a hop looks its edge and then its peer up, and a lookup makes an empty entry; a score that raises
      in between has looked up the edge only. */
  function LookedUp(m: Memory, from: NodeId, n: NodeId, raises: bool): Memory {
    m.(peerScores := if raises then m.peerScores else m.peerScores[n := Peer(m.peerScores, n)],
      edgeScores := m.edgeScores[(from, n) := EdgeOf(m.edgeScores, (from, n))])
  }

  // ---- the sum of a peer's edges ----------------------------------------------------------

  /** Counters summed over a set of edges. */
  ghost function Total(m: Edges, keys: set<Edge>): Counters
    requires keys <= m.Keys
  {
    if keys == {} then ZERO
    else
      var e :| e in keys;
      m[e].counts.Plus(Total(m, keys - {e}))
  }

  /** The edges into a node. */
  function Into(m: Edges, n: NodeId): (keys: set<Edge>)
    ensures keys <= m.Keys
  {
    set e | e in m && e.1 == n
  }

  lemma {:induction false} TotalPick(m: Edges, keys: set<Edge>, e: Edge)
    requires keys <= m.Keys && e in keys
    ensures Total(m, keys) == m[e].counts.Plus(Total(m, keys - {e}))
    decreases keys
  {
    var f :| f in keys && Total(m, keys) == m[f].counts.Plus(Total(m, keys - {f}));
    if f != e {
      TotalPick(m, keys - {f}, e);
      TotalPick(m, keys - {e}, f);
      assert keys - {f} - {e} == keys - {e} - {f};
      PlusSwap(m[f].counts, m[e].counts, Total(m, keys - {e} - {f}));
    }
  }

  lemma PlusSwap(a: Counters, b: Counters, c: Counters)
    ensures a.Plus(b.Plus(c)) == b.Plus(a.Plus(c))
  {
  }

  lemma {:induction false} TotalSame(m: Edges, m': Edges, keys: set<Edge>)
    requires keys <= m.Keys && keys <= m'.Keys && forall e :: e in keys ==> m'[e].counts == m[e].counts
    ensures Total(m', keys) == Total(m, keys)
    decreases keys
  {
    if keys != {} {
      var e :| e in keys;
      TotalSame(m, m', keys - {e});
      TotalPick(m, keys, e);
      TotalPick(m', keys, e);
    }
  }

  lemma {:induction false} TotalScaled(m: Edges, m': Edges, keys: set<Edge>, k: real)
    requires keys <= m.Keys && keys <= m'.Keys && forall e :: e in keys ==> m'[e].counts == m[e].counts.Times(k)
    ensures Total(m', keys) == Total(m, keys).Times(k)
    decreases keys
  {
    if keys != {} {
      var e :| e in keys;
      TotalScaled(m, m', keys - {e}, k);
      TotalPick(m, keys, e);
      TotalPick(m', keys, e);
      TimesPlus(m[e].counts, Total(m, keys - {e}), k);
    }
  }

  lemma TimesPlus(a: Counters, b: Counters, k: real)
    ensures a.Plus(b).Times(k) == a.Times(k).Plus(b.Times(k))
  {
    hide By;
    var c := a.Plus(b);
    Distributes(a.delivered, b.delivered, c.delivered, k);
    Distributes(a.drops, b.drops, c.drops, k);
    Distributes(a.sybilTouches, b.sybilTouches, c.sybilTouches, k);
    Distributes(a.linkLosses, b.linkLosses, c.linkLosses, k);
    Distributes(a.loops, b.loops, c.loops, k);
    Distributes(a.ttlExpired, b.ttlExpired, c.ttlExpired, k);
    Distributes(a.nodeDown, b.nodeDown, c.nodeDown, k);
  }

  lemma Distributes(x: real, y: real, sum: real, k: real)
    requires sum == x + y
    ensures By(sum, k) == By(x, k) + By(y, k)
  {
  }

  /** Each counter of a peer is the sum of that counter over all edges into it. */
  ghost predicate Agree(peers: Peers, edges: Edges) {
    forall n :: Peer(peers, n) == Total(edges, Into(edges, n))
  }

  /** Writing one edge changes the sum of its head by the difference, and no other sum. */
  lemma TotalUpdate(m: Edges, e: Edge, x: EdgeScore, gain: Counters, n: NodeId)
    requires x.counts == EdgeOf(m, e).counts.Plus(gain)
    ensures Total(m[e := x], Into(m[e := x], n)) == if n == e.1 then Total(m, Into(m, n)).Plus(gain)
      else Total(m, Into(m, n))
  {
    hide Total, Counters.Plus;
    var m' := m[e := x];
    var rest := Into(m, n) - {e};
    TotalSame(m, m', rest);
    if n == e.1 {
      assert Into(m', n) == rest + {e} && Into(m', n) - {e} == rest;
      TotalPick(m', Into(m', n), e);
      if e in m {
        TotalPick(m, Into(m, n), e);
        PlusComm(m[e].counts, gain, Total(m, rest));
      } else {
        assert Into(m, n) == rest;
        PlusZero(gain, Total(m, rest));
      }
    } else {
      assert Into(m', n) == Into(m, n) == rest;
    }
  }

  lemma PlusComm(a: Counters, b: Counters, c: Counters)
    ensures a.Plus(b).Plus(c) == a.Plus(c).Plus(b)
  {
  }

  lemma PlusZero(a: Counters, b: Counters)
    ensures ZERO.Plus(a) == a == a.Plus(ZERO) && a.Plus(b) == b.Plus(a)
  {
  }

  /** A gain on an edge and the same gain on its head keep the ledgers in step. */
  lemma GainAgrees(peers: Peers, edges: Edges, e: Edge, x: EdgeScore, gain: Counters)
    requires Agree(peers, edges) && x.counts == EdgeOf(edges, e).counts.Plus(gain)
    ensures Agree(peers[e.1 := Peer(peers, e.1).Plus(gain)], edges[e := x])
  {
    hide Total, Counters.Plus;
    var peers', edges' := peers[e.1 := Peer(peers, e.1).Plus(gain)], edges[e := x];
    forall n ensures Peer(peers', n) == Total(edges', Into(edges', n)) {
      TotalUpdate(edges, e, x, gain, n);
      assert Peer(peers, n) == Total(edges, Into(edges, n));
    }
  }

  lemma ObservedAgrees(s: Settings, m: Memory, o: Observation)
    requires s.windowSize > 0 && MemoryOk(m) && Agree(m.peerScores, m.edgeScores) && o.from.Some?
    ensures Agree(Observed(s, m, o).peerScores, Observed(s, m, o).edgeScores)
  {
    hide Agree, MemoryOk, Gain, Counters.Plus, Blend, EwmaRisk, AdaptedBudget, Pushed;
    var e := (o.from.value, o.neighbor);
    GainAgrees(m.peerScores, m.edgeScores, e, Bumped(m.edgeScores, e, o), Gain(o));
  }

  lemma LookedUpAgrees(m: Memory, from: NodeId, n: NodeId, raises: bool)
    requires Agree(m.peerScores, m.edgeScores)
    ensures Agree(LookedUp(m, from, n, raises).peerScores, LookedUp(m, from, n, raises).edgeScores)
  {
    hide Agree, Counters.Plus;
    var e := (from, n);
    PlusZero(Peer(m.peerScores, n), ZERO);
    PlusZero(EdgeOf(m.edgeScores, e).counts, ZERO);
    GainAgrees(m.peerScores, m.edgeScores, e, EdgeOf(m.edgeScores, e), ZERO);
    EmptyEntry(m.peerScores, LookedUp(m, from, n, raises).edgeScores, n);
  }

  /** An empty entry changes no agreement. */
  lemma EmptyEntry(peers: Peers, edges: Edges, n: NodeId)
    ensures Agree(peers, edges) <==> Agree(peers[n := Peer(peers, n)], edges)
  {
    hide Total, Into;
    assert forall k :: Peer(peers[n := Peer(peers, n)], k) == Peer(peers, k);
  }

  // ---- saving and restarting ------------------------------------------------------------------

  /** A table written under text keys. */
  ghost predicate Written<K, V>(m: map<K, V>, f: map<string, V>, text: K -> string) {
    && (forall k :: k in m ==> text(k) in f && f[text(k)] == m[k])
    && (forall t :: t in f ==> exists k :: k in m && t == text(k))
  }

  /** The keys a text table names. */
  function Named<K(==), V>(f: map<string, V>, parse: string -> Option<K>): set<K> {
    set t | t in f && parse(t).Some? :: parse(t).value
  }

  /** A text table has been read over another table: every named entry is decayed, the others stay. */
  ghost predicate Read<K(!new), V>(f: map<string, V>, before: map<K, V>, m: map<K, V>, parse: string -> Option<K>,
      decay: V -> V)
  {
    && (forall t :: t in f ==> parse(t).Some?)
    && m.Keys == before.Keys + Named(f, parse)
    && (forall k :: k in Named(f, parse) ==> exists t :: t in f && parse(t) == Some(k) && m[k] == decay(f[t]))
    && (forall k :: k in before && k !in Named(f, parse) ==> m[k] == before[k])
  }

  /** What is written under keys that parse back is read back, and nothing else is. */
  lemma ReadBack<K(!new), V>(m: map<K, V>, f: map<string, V>, text: K -> string, m': map<K, V>,
      parse: string -> Option<K>, decay: V -> V)
    requires Written(m, f, text) && Read(f, map[], m', parse, decay) && forall k :: k in m ==> parse(text(k)) == Some(k)
    ensures m'.Keys == m.Keys && forall k :: k in m ==> m'[k] == decay(m[k])
  {
    hide Written, Read;
    forall k | k in m ensures k in m' { WrittenIsRead(m, f, text, m', parse, decay, k); }
    forall k | k in m' ensures k in m && m'[k] == decay(m[k]) { ReadWasWritten(m, f, text, m', parse, decay, k); }
  }

  lemma WrittenIsRead<K(!new), V>(m: map<K, V>, f: map<string, V>, text: K -> string, m': map<K, V>,
      parse: string -> Option<K>, decay: V -> V, k: K)
    requires Written(m, f, text) && Read(f, map[], m', parse, decay) && k in m && parse(text(k)) == Some(k)
    ensures k in m'
  {
    assert text(k) in f && parse(text(k)).value == k;
  }

  lemma ReadWasWritten<K(!new), V>(m: map<K, V>, f: map<string, V>, text: K -> string, m': map<K, V>,
      parse: string -> Option<K>, decay: V -> V, k: K)
    requires Written(m, f, text) && Read(f, map[], m', parse, decay) && forall j :: j in m ==> parse(text(j)) == Some(j)
    requires k in m'
    ensures k in m && m'[k] == decay(m[k])
  {
    var t :| t in f && parse(t) == Some(k) && m'[k] == decay(f[t]);
    var j :| j in m && t == text(j);
  }

  function EdgeKey(e: Edge): string { EdgeText(e.0, e.1) }
  function Aged(k: real): Counters -> Counters { (c: Counters) => c.Times(k) }
  function AgedEdge(k: real): EdgeScore -> EdgeScore { (x: EdgeScore) => x.Decayed(k) }

  /** save: the ledgers under their text keys. */
  ghost predicate SavedAs(m: Memory, f: Saved) {
    f.riskBudget == m.riskBudget && Written(m.peerScores, f.peers, IntText) && Written(m.edgeScores, f.edges, EdgeKey)
  }

  /** load: every entry of the file decayed under its parsed key, over what the solver already had; a
      loaded peer's fast risk starts from its durable evidence. */
  ghost predicate LoadedFrom(s: Settings, f: Saved, before: Memory, m: Memory) {
    && m.riskBudget == f.riskBudget && m.recentDrops == before.recentDrops
    && Read(f.peers, before.peerScores, m.peerScores, ParseInt, Aged(s.stateDecay))
    && Read(f.edges, before.edgeScores, m.edgeScores, ParseEdge, AgedEdge(s.stateDecay))
    && m.peerRisk.Keys == before.peerRisk.Keys + Named(f.peers, ParseInt)
    && forall n :: n in m.peerRisk ==>
         if n in Named(f.peers, ParseInt)
         then m.peerScores[n].HasBadness() && m.peerRisk[n] == m.peerScores[n].Badness()
         else m.peerRisk[n] == before.peerRisk[n]
  }

  function Newborn(budget: real): Memory {
    Memory(budget, [], map[], map[], map[])
  }

  function AgedPeers(m: Peers, k: real): Peers {
    map n | n in m :: m[n].Times(k)
  }

  function AgedEdges(m: Edges, k: real): Edges {
    map e | e in m :: m[e].Decayed(k)
  }

  /** A restart gives back every peer and edge, and nothing else, with its evidence decayed; the fast
      risk starts from the durable evidence, and the window of outcomes is empty. */
  function Restarted(s: Settings, m: Memory): Memory
    requires MemoryOk(m) && s.stateDecay >= 0.0
  {
    var peers := AgedPeers(m.peerScores, s.stateDecay);
    AgedNonNegative(m, s.stateDecay);
    Memory(m.riskBudget, [], map n | n in peers :: peers[n].Badness(), peers, AgedEdges(m.edgeScores, s.stateDecay))
  }

  lemma AgedNonNegative(m: Memory, k: real)
    requires MemoryOk(m) && k >= 0.0
    ensures forall n :: n in m.peerScores ==> m.peerScores[n].Times(k).NonNegative()
    ensures forall e :: e in m.edgeScores ==> m.edgeScores[e].Decayed(k).NonNegative()
  {
  }

  lemma TimesNonNegative(c: Counters, k: real)
    requires c.NonNegative() && k >= 0.0
    ensures c.Times(k).NonNegative()
  {
  }

  lemma ProductNonNegative(x: real, k: real)
    requires x >= 0.0 && k >= 0.0
    ensures x * k >= 0.0
  {
  }

  /** Saving and loading into a new solver is a restart, whatever budget the new solver was given. */
  lemma RestartRoundTrip(s: Settings, budget: real, m: Memory, f: Saved, m': Memory)
    requires MemoryOk(m) && s.stateDecay >= 0.0 && SavedAs(m, f) && LoadedFrom(s, f, Newborn(budget), m')
    ensures m' == Restarted(s, m)
  {
    hide SavedAs, LoadedFrom, Counters.Badness, Counters.Times, Counters.NonNegative;
    PeersBack(s, budget, m, f, m');
    EdgesBack(s, budget, m, f, m');
    RisksBack(s, budget, m, f, m');
    AgedNonNegative(m, s.stateDecay);
    var r := Restarted(s, m);
    assert r.peerScores == m'.peerScores;
    assert forall n :: n in r.peerRisk <==> n in m'.peerScores;
    assert forall n :: n in m'.peerRisk <==> n in m'.peerScores;
    forall n | n in r.peerRisk ensures r.peerRisk[n] == m'.peerRisk[n] {
      assert r.peerRisk[n] == m'.peerScores[n].Badness();
    }
    assert m'.peerRisk == r.peerRisk;
  }

  lemma PeersBack(s: Settings, budget: real, m: Memory, f: Saved, m': Memory)
    requires SavedAs(m, f) && LoadedFrom(s, f, Newborn(budget), m')
    ensures m'.peerScores == AgedPeers(m.peerScores, s.stateDecay)
  {
    hide Written, Read, IntText, ParseInt, Named;
    forall n | n in m.peerScores ensures ParseInt(IntText(n)) == Some(n) { IntRoundTrip(n); }
    ReadBack(m.peerScores, f.peers, IntText, m'.peerScores, ParseInt, Aged(s.stateDecay));
  }

  lemma EdgesBack(s: Settings, budget: real, m: Memory, f: Saved, m': Memory)
    requires SavedAs(m, f) && LoadedFrom(s, f, Newborn(budget), m')
    ensures m'.edgeScores == AgedEdges(m.edgeScores, s.stateDecay)
  {
    hide Written, Read, EdgeText, ParseEdge, Named;
    forall e | e in m.edgeScores ensures ParseEdge(EdgeKey(e)) == Some(e) { EdgeRoundTrip(e.0, e.1); }
    ReadBack(m.edgeScores, f.edges, EdgeKey, m'.edgeScores, ParseEdge, AgedEdge(s.stateDecay));
  }

  /** The rest of the memory: the budget is kept, and every peer's risk is set anew. */
  lemma RisksBack(s: Settings, budget: real, m: Memory, f: Saved, m': Memory)
    requires SavedAs(m, f) && LoadedFrom(s, f, Newborn(budget), m')
    ensures m'.riskBudget == m.riskBudget && m'.recentDrops == [] && m'.peerRisk.Keys == m'.peerScores.Keys
    ensures forall n :: n in m'.peerRisk ==>
      m'.peerScores[n].HasBadness() && m'.peerRisk[n] == m'.peerScores[n].Badness()
  {
    hide Written, Read, Named, ParseInt, Counters.Badness, Counters.HasBadness;
    AllNamed(f.peers, m'.peerScores, ParseInt, Aged(s.stateDecay));
  }

  lemma AllNamed<K(!new), V>(f: map<string, V>, m: map<K, V>, parse: string -> Option<K>, decay: V -> V)
    requires Read(f, map[], m, parse, decay)
    ensures Named(f, parse) == m.Keys
  {
  }

  lemma AgedAgrees(peers: Peers, edges: Edges, k: real)
    requires Agree(peers, edges)
    ensures Agree(AgedPeers(peers, k), AgedEdges(edges, k))
  {
    hide Total, Counters.Times;
    var peers', edges' := AgedPeers(peers, k), AgedEdges(edges, k);
    forall n ensures Peer(peers', n) == Total(edges', Into(edges', n)) {
      assert Into(edges', n) == Into(edges, n);
      TotalScaled(edges, edges', Into(edges, n), k);
      TimesZero(k);
      assert Peer(peers', n) == Peer(peers, n).Times(k);
    }
  }

  lemma TimesZero(k: real)
    ensures ZERO.Times(k) == ZERO
  {
  }

  // ---- bounds -----------------------------------------------------------------------------------

  lemma BadnessBounds(c: Counters)
    requires c.NonNegative()
    ensures c.HasBadness() && 0.0 <= c.Badness() <= 1.0
  {
    assert c.Weighted() >= 0.0;
    DivNonNegative(c.Weighted(), c.delivered + c.drops + 8.0);
  }

  lemma DivNonNegative(x: real, y: real)
    requires x >= 0.0 && y > 0.0
    ensures x / y >= 0.0
  {
  }

  /** d has failed at least as often as c in every way, and delivered at most as often. */
  predicate NoBetter(c: Counters, d: Counters) {
    && c.delivered >= d.delivered && c.drops <= d.drops && c.linkLosses <= d.linkLosses && c.loops <= d.loops
    && c.ttlExpired <= d.ttlExpired && c.nodeDown <= d.nodeDown
  }

  /** Every failure counter raises badness, drops included although they also add evidence; deliveries lower it. */
  lemma BadnessMonotone(c: Counters, d: Counters)
    requires c.NonNegative() && d.NonNegative() && NoBetter(c, d)
    ensures c.Badness() <= d.Badness()
  {
    CappedFraction(c.Weighted(), c.delivered + c.drops + 8.0, d.Weighted(), d.delivered + d.drops + 8.0);
  }

  lemma BlendBounds(s: Settings, before: real, o: Observation, counts: Counters)
    requires counts.NonNegative()
    ensures 0.0 <= Blend(EwmaRisk(s, before, o), counts) <= 1.0
  {
    hide Counters.Badness;
    BadnessBounds(counts);
  }

  lemma PlusNonNegative(a: Counters, o: Observation)
    requires a.NonNegative()
    ensures a.Plus(Gain(o)).NonNegative()
  {
  }

  /** Risks stay in [0, 1] and counters non-negative. */
  lemma ObservedOk(s: Settings, m: Memory, o: Observation)
    requires s.windowSize > 0 && MemoryOk(m)
    ensures MemoryOk(Observed(s, m, o))
  {
    hide Counters.Badness, Counters.Plus, Counters.NonNegative, Gain, AdaptedBudget, Pushed, EwmaRisk, Blend;
    PeerOk(m, o.neighbor);
    PlusNonNegative(Peer(m.peerScores, o.neighbor), o);
    BlendBounds(s, Risk(m.peerRisk, o.neighbor), o, Peer(m.peerScores, o.neighbor).Plus(Gain(o)));
    if o.from.Some? {
      EdgeNonNegative(m, (o.from.value, o.neighbor));
      PlusNonNegative(EdgeOf(m.edgeScores, (o.from.value, o.neighbor)).counts, o);
    }
  }

  lemma EdgeNonNegative(m: Memory, e: Edge)
    requires MemoryOk(m)
    ensures EdgeOf(m.edgeScores, e).NonNegative()
  {
  }

  lemma LookedUpOk(m: Memory, from: NodeId, n: NodeId, raises: bool)
    requires MemoryOk(m)
    ensures MemoryOk(LookedUp(m, from, n, raises))
  {
  }

  lemma RestartedOk(s: Settings, m: Memory)
    requires MemoryOk(m) && s.stateDecay >= 0.0
    ensures MemoryOk(Restarted(s, m))
  {
    hide Counters.Badness, Counters.Times, Counters.NonNegative;
    AgedNonNegative(m, s.stateDecay);
    var peers := AgedPeers(m.peerScores, s.stateDecay);
    forall n | n in peers ensures peers[n].HasBadness() && 0.0 <= peers[n].Badness() <= 1.0 {
      BadnessBounds(peers[n]);
    }
  }

  // ---- whole lives of a solver ------------------------------------------------------------------

  datatype Op = Observe(o: Observation) | Score(from: NodeId, n: NodeId, raises: bool) | Restart

  ghost predicate SettingsOk(s: Settings) {
    s.windowSize > 0 && s.stateDecay >= 0.0
  }

  function Do(s: Settings, m: Memory, op: Op): Memory
    requires SettingsOk(s) && MemoryOk(m)
  {
    match op
    case Observe(o) => Observed(s, m, o)
    case Score(from, n, raises) => LookedUp(m, from, n, raises)
    case Restart => Restarted(s, m)
  }

  lemma DoOk(s: Settings, m: Memory, op: Op)
    requires SettingsOk(s) && MemoryOk(m)
    ensures MemoryOk(Do(s, m, op))
  {
    match op
    case Observe(o) => ObservedOk(s, m, o);
    case Score(from, n, raises) => LookedUpOk(m, from, n, raises);
    case Restart => RestartedOk(s, m);
  }

  /** What a solver that starts empty remembers after a sequence of observations, lookups and restarts. */
  function Life(s: Settings, budget: real, ops: seq<Op>): (m: Memory)
    requires SettingsOk(s)
    ensures MemoryOk(m)
  {
    if |ops| == 0 then Newborn(budget)
    else
      var m := Life(s, budget, ops[..|ops| - 1]);
      DoOk(s, m, ops[|ops| - 1]);
      Do(s, m, ops[|ops| - 1])
  }

  lemma LifeStart(s: Settings, budget: real)
    requires SettingsOk(s)
    ensures Life(s, budget, []) == Newborn(budget)
  {
  }

  lemma LifeStep(s: Settings, budget: real, ops: seq<Op>)
    requires SettingsOk(s) && |ops| > 0
    ensures Life(s, budget, ops) == Do(s, Life(s, budget, ops[..|ops| - 1]), ops[|ops| - 1])
  {
    hide Do, MemoryOk;
  }

  // ---- when the ledgers agree ---------------------------------------------------------------------

  /** Does the observation add to any counter? */
  predicate Counts(o: Observation) {
    o.delivered || o.dropped || o.reason in {Some(LinkLoss), Some(Loop), Some(TtlExpired), Some(NodeDown)}
  }

  lemma GainOfCounted(o: Observation)
    ensures Gain(o).NonNegative() && (Gain(o) == ZERO <==> !Counts(o))
  {
  }

  /** What the peer has counted that no edge into it has. */
  ghost predicate Surplus(m: Memory, n: NodeId, x: Counters) {
    Peer(m.peerScores, n) == Total(m.edgeScores, Into(m.edgeScores, n)).Plus(x)
  }

  /** The surplus a life leaves at a peer: observations without a source add to it, restarts age it. */
  function SurplusOf(s: Settings, ops: seq<Op>, n: NodeId): Counters {
    if |ops| == 0 then ZERO
    else
      var x := SurplusOf(s, ops[..|ops| - 1], n);
      match ops[|ops| - 1]
      case Observe(o) => if o.from.None? && o.neighbor == n then x.Plus(Gain(o)) else x
      case Score(_, _, _) => x
      case Restart => x.Times(s.stateDecay)
  }

  lemma ObservedSurplus(s: Settings, m: Memory, o: Observation, n: NodeId, x: Counters)
    requires s.windowSize > 0 && MemoryOk(m) && Surplus(m, n, x)
    ensures Surplus(Observed(s, m, o), n, if o.from.None? && o.neighbor == n then x.Plus(Gain(o)) else x)
  {
    hide MemoryOk, Gain, Counters.Plus, Blend, EwmaRisk, AdaptedBudget, Pushed, Total, Into;
    var t := Total(m.edgeScores, Into(m.edgeScores, n));
    PlusAssoc(t, x, Gain(o));
    if o.from.Some? {
      var e := (o.from.value, o.neighbor);
      TotalUpdate(m.edgeScores, e, Bumped(m.edgeScores, e, o), Gain(o), n);
      PlusComm(t, Gain(o), x);
    }
  }

  lemma LookedUpSurplus(m: Memory, from: NodeId, k: NodeId, n: NodeId, x: Counters, raises: bool)
    requires Surplus(m, n, x)
    ensures Surplus(LookedUp(m, from, k, raises), n, x)
  {
    hide Counters.Plus, Total, Into;
    var e := (from, k);
    PlusZero(EdgeOf(m.edgeScores, e).counts, ZERO);
    TotalUpdate(m.edgeScores, e, EdgeOf(m.edgeScores, e), ZERO, n);
    PlusZero(Total(m.edgeScores, Into(m.edgeScores, n)), ZERO);
  }

  lemma RestartedSurplus(s: Settings, m: Memory, n: NodeId, x: Counters)
    requires SettingsOk(s) && MemoryOk(m) && Surplus(m, n, x)
    ensures Surplus(Restarted(s, m), n, x.Times(s.stateDecay))
  {
    hide Counters.Plus, Counters.Times, Counters.Badness, Total, MemoryOk;
    var k, edges := s.stateDecay, m.edgeScores;
    assert Into(AgedEdges(edges, k), n) == Into(edges, n);
    TotalScaled(edges, AgedEdges(edges, k), Into(edges, n), k);
    TimesPlus(Total(edges, Into(edges, n)), x, k);
    TimesZero(k);
  }

  lemma PlusAssoc(a: Counters, b: Counters, c: Counters)
    ensures a.Plus(b.Plus(c)) == a.Plus(b).Plus(c)
  {
  }

  lemma TotalNone(m: Edges)
    ensures Total(m, {}) == ZERO
  {
  }

  lemma EmptySurplus(s: Settings, budget: real, n: NodeId)
    requires SettingsOk(s)
    ensures Surplus(Life(s, budget, []), n, ZERO)
  {
    hide Life, MemoryOk, Total, Counters.Plus;
    LifeStart(s, budget);
    var edges: Edges := map[];
    assert Into(edges, n) == {};
    TotalNone(edges);
    PlusZero(ZERO, ZERO);
  }

  /** The accounts of a life: each peer's counters are the sum over its incoming edges plus the surplus. */
  lemma {:induction false} LifeSurplus(s: Settings, budget: real, ops: seq<Op>, n: NodeId)
    requires SettingsOk(s)
    ensures Surplus(Life(s, budget, ops), n, SurplusOf(s, ops, n))
  {
    hide Surplus, MemoryOk, Observed, Restarted, LookedUp, Life, Gain, Counters.Plus, Counters.Times;
    if |ops| == 0 {
      EmptySurplus(s, budget, n);
    } else {
      var init := ops[..|ops| - 1];
      LifeSurplus(s, budget, init, n);
      LifeStep(s, budget, ops);
      var m, x := Life(s, budget, init), SurplusOf(s, init, n);
      match ops[|ops| - 1]
      case Observe(o) => ObservedSurplus(s, m, o, n, x);
      case Score(from, k, raises) => LookedUpSurplus(m, from, k, n, x, raises);
      case Restart => RestartedSurplus(s, m, n, x);
    }
  }

  /** An observation that some peer counted and no edge did. */
  predicate Orphan(op: Op) {
    op.Observe? && op.o.from.None? && Counts(op.o)
  }

  /** The i-th operation left a surplus that nothing has wiped out: only a restart with decay 0 does. */
  predicate Lasting(s: Settings, ops: seq<Op>, i: nat)
    requires i < |ops|
  {
    Orphan(ops[i]) && (s.stateDecay == 0.0 ==> forall j :: i < j < |ops| ==> !ops[j].Restart?)
  }

  /** Some lasting orphan is about the peer. */
  ghost predicate Orphaned(s: Settings, ops: seq<Op>, n: NodeId) {
    exists i: nat :: i < |ops| && Lasting(s, ops, i) && ops[i].o.neighbor == n
  }

  lemma OrphanedStep(s: Settings, ops: seq<Op>, n: NodeId)
    requires |ops| > 0
    ensures var z := |ops| - 1;
      (Orphaned(s, ops, n) <==>
       || (Orphaned(s, ops[..z], n) && !(ops[z].Restart? && s.stateDecay == 0.0))
       || (Orphan(ops[z]) && ops[z].o.neighbor == n))
  {
    hide Counts;
    var z := |ops| - 1;
    var init := ops[..z];
    forall i: nat | i < z
      ensures Lasting(s, ops, i) <==> Lasting(s, init, i) && !(ops[z].Restart? && s.stateDecay == 0.0)
    {
      assert init[i] == ops[i];
    }
    if Orphaned(s, init, n) {
      var i: nat :| i < z && Lasting(s, init, i) && init[i].o.neighbor == n;
      assert ops[i].o.neighbor == n;
    }
    assert Lasting(s, ops, z) <==> Orphan(ops[z]);
  }

  /** A peer has a surplus just when some lasting orphan is about it. */
  lemma {:induction false} SurplusExactly(s: Settings, ops: seq<Op>, n: NodeId)
    requires SettingsOk(s)
    ensures SurplusOf(s, ops, n).NonNegative() && (SurplusOf(s, ops, n) != ZERO <==> Orphaned(s, ops, n))
  {
    hide Counters.Plus, Counters.Times, Counters.NonNegative, Gain, Counts, Orphaned;
    if |ops| == 0 {
      NothingYet(s, n);
    } else {
      var z := |ops| - 1;
      var x := SurplusOf(s, ops[..z], n);
      SurplusExactly(s, ops[..z], n);
      OrphanedStep(s, ops, n);
      TimesZeroExactly(x, s.stateDecay);
      if ops[z].Observe? {
        GainOfCounted(ops[z].o);
        PlusZeroExactly(x, Gain(ops[z].o));
      }
    }
  }

  lemma NothingYet(s: Settings, n: NodeId)
    ensures ZERO.NonNegative() && !Orphaned(s, [], n)
  {
  }

  lemma PlusZeroExactly(a: Counters, b: Counters)
    requires a.NonNegative() && b.NonNegative()
    ensures a.Plus(b).NonNegative() && (a.Plus(b) == ZERO <==> a == ZERO && b == ZERO)
  {
    AllZero(a);
    AllZero(b);
    AllZero(a.Plus(b));
    BothZero(a.delivered, b.delivered);
    BothZero(a.drops, b.drops);
    BothZero(a.sybilTouches, b.sybilTouches);
    BothZero(a.linkLosses, b.linkLosses);
    BothZero(a.loops, b.loops);
    BothZero(a.ttlExpired, b.ttlExpired);
    BothZero(a.nodeDown, b.nodeDown);
  }

  lemma AllZero(c: Counters)
    ensures c == ZERO <==>
      (&& c.delivered == c.drops == c.sybilTouches == c.linkLosses == 0.0
       && c.loops == c.ttlExpired == c.nodeDown == 0.0)
  {
  }

  lemma BothZero(x: real, y: real)
    requires x >= 0.0 && y >= 0.0
    ensures x + y >= 0.0 && (x + y == 0.0 <==> x == 0.0 && y == 0.0)
  {
  }

  lemma TimesZeroExactly(a: Counters, k: real)
    requires a.NonNegative() && k >= 0.0
    ensures a.Times(k).NonNegative() && (a.Times(k) == ZERO <==> a == ZERO || k == 0.0)
  {
    ProductZero(a.delivered, k);
    ProductZero(a.drops, k);
    ProductZero(a.sybilTouches, k);
    ProductZero(a.linkLosses, k);
    ProductZero(a.loops, k);
    ProductZero(a.ttlExpired, k);
    ProductZero(a.nodeDown, k);
  }

  lemma ProductZero(x: real, k: real)
    requires x >= 0.0 && k >= 0.0
    ensures x * k >= 0.0 && (x * k == 0.0 <==> x == 0.0 || k == 0.0)
  {
  }

  /** After any life the peer aggregate and the edge ledger agree exactly when no observation without a
      source was counted, except before a restart that forgets everything. */
  lemma LedgersAgree(s: Settings, budget: real, ops: seq<Op>)
    requires SettingsOk(s)
    ensures Agree(Life(s, budget, ops).peerScores, Life(s, budget, ops).edgeScores) <==>
            forall i: nat :: i < |ops| ==> !Lasting(s, ops, i)
  {
    hide Life, MemoryOk, Counters.Plus;
    var m := Life(s, budget, ops);
    forall n
      ensures Peer(m.peerScores, n) == Total(m.edgeScores, Into(m.edgeScores, n)) <==> SurplusOf(s, ops, n) == ZERO
    {
      LifeSurplus(s, budget, ops, n);
      PlusCancel(Total(m.edgeScores, Into(m.edgeScores, n)), SurplusOf(s, ops, n));
    }
    forall n ensures SurplusOf(s, ops, n) != ZERO <==> Orphaned(s, ops, n) {
      SurplusExactly(s, ops, n);
    }
    hide Total, Peer, Lasting, SurplusOf;
    if i: nat :| i < |ops| && Lasting(s, ops, i) {
      assert Orphaned(s, ops, ops[i].o.neighbor);
    }
  }

  lemma PlusCancel(a: Counters, x: Counters)
    ensures a == a.Plus(x) <==> x == ZERO
  {
  }

  /** One delivery reported without a source is enough to part the ledgers. */
  lemma SourcelessExample(s: Settings, budget: real)
    requires SettingsOk(s)
    ensures var m := Life(s, budget, [Observe(Observation(1, true, false, None, None, false))]);
      Peer(m.peerScores, 1).delivered == 1.0 && m.edgeScores == map[] && !Agree(m.peerScores, m.edgeScores)
  {
    var ops := [Observe(Observation(1, true, false, None, None, false))];
    assert ops[..0] == [] && Lasting(s, ops, 0);
    LedgersAgree(s, budget, ops);
  }

  // ---- when the budget falls ------------------------------------------------------------------------

  /** The i-th operation is an observation that relaxes the budget. */
  predicate RelaxedAt(s: Settings, budget: real, ops: seq<Op>, i: nat)
    requires SettingsOk(s) && i < |ops|
  {
    ops[i].Observe? && Relaxes(s, Life(s, budget, ops[..i + 1]).recentDrops)
  }

  /** The budget is at no time below what it was before. */
  ghost predicate NeverFalls(s: Settings, budget: real, ops: seq<Op>)
    requires SettingsOk(s)
  {
    forall i: nat :: i < |ops| ==> Life(s, budget, ops[..i + 1]).riskBudget >= Life(s, budget, ops[..i]).riskBudget
  }

  lemma BudgetStep(s: Settings, budget: real, ops: seq<Op>, i: nat)
    requires SettingsOk(s) && i < |ops|
    ensures var b, b' := Life(s, budget, ops[..i]).riskBudget, Life(s, budget, ops[..i + 1]).riskBudget;
      b' == if RelaxedAt(s, budget, ops, i) then Min(s.maxBudget, b + s.adaptStep) else b
  {
    hide Life, MemoryOk, LookedUp, Restarted, Observed, Relaxes;
    assert ops[..i + 1][..i] == ops[..i];
    LifeStep(s, budget, ops[..i + 1]);
    DoBudget(s, Life(s, budget, ops[..i]), ops[i]);
  }

  /** What one operation does to the budget and the window. */
  lemma DoBudget(s: Settings, m: Memory, op: Op)
    requires SettingsOk(s) && MemoryOk(m)
    ensures var m' := Do(s, m, op);
      && m'.riskBudget == (if op.Observe? then AdaptedBudget(s, m.riskBudget, m'.recentDrops) else m.riskBudget)
      && (op.Observe? ==> m'.recentDrops == Pushed(m.recentDrops, op.o.dropped, s.windowSize))
  {
    hide MemoryOk, AdaptedBudget, Pushed, Blend, EwmaRisk, Counters.Plus, Counters.Badness, Gain;
  }

  lemma {:induction false} BudgetStays(s: Settings, budget: real, ops: seq<Op>, i: nat)
    requires SettingsOk(s) && i <= |ops|
    ensures (forall j: nat :: j < i ==> !RelaxedAt(s, budget, ops, j)) ==>
      Life(s, budget, ops[..i]).riskBudget == budget
    ensures budget <= s.maxBudget && s.adaptStep >= 0.0 ==> Life(s, budget, ops[..i]).riskBudget <= s.maxBudget
  {
    hide RelaxedAt, Life;
    if i > 0 {
      BudgetStays(s, budget, ops, i - 1);
      BudgetStep(s, budget, ops, i - 1);
    } else {
      assert ops[..0] == [];
      LifeStart(s, budget);
    }
  }

  /** The first relaxation, if there is one. */
  lemma {:induction false} FirstRelaxed(s: Settings, budget: real, ops: seq<Op>, i: nat) returns (k: nat)
    requires SettingsOk(s) && i < |ops| && RelaxedAt(s, budget, ops, i)
    ensures k <= i && RelaxedAt(s, budget, ops, k) && forall j: nat :: j < k ==> !RelaxedAt(s, budget, ops, j)
  {
    hide RelaxedAt;
    if j: nat :| j < i && RelaxedAt(s, budget, ops, j) {
      k := FirstRelaxed(s, budget, ops, j);
    } else {
      k := i;
    }
  }

  /** Over a whole life the risk budget never falls exactly when it starts within its maximum and steps
      up, or is never relaxed at all. */
  lemma BudgetNeverFalls(s: Settings, budget: real, ops: seq<Op>)
    requires SettingsOk(s)
    ensures NeverFalls(s, budget, ops) <==>
      (budget <= s.maxBudget && s.adaptStep >= 0.0) || forall i: nat :: i < |ops| ==> !RelaxedAt(s, budget, ops, i)
  {
    hide RelaxedAt, Life;
    forall i: nat | i < |ops|
      ensures (budget <= s.maxBudget && s.adaptStep >= 0.0) || !RelaxedAt(s, budget, ops, i) ==>
        Life(s, budget, ops[..i + 1]).riskBudget >= Life(s, budget, ops[..i]).riskBudget
    {
      BudgetStep(s, budget, ops, i);
      BudgetStays(s, budget, ops, i);
    }
    if i: nat :| i < |ops| && RelaxedAt(s, budget, ops, i) {
      var k := FirstRelaxed(s, budget, ops, i);
      BudgetStep(s, budget, ops, k);
      BudgetStays(s, budget, ops, k);
    }
  }

  /** With the default settings ten drops in a row lower a budget of 0.8 to 0.55. */
  lemma BudgetExample(s: Settings, o: Observation)
    requires s.maxBudget == 0.55 && s.adaptStep == 0.06 && s.windowSize == 10 && s.dropThreshold == 0.35
    requires SettingsOk(s) && o.dropped
    ensures Life(s, 0.8, seq(10, i => Observe(o))).riskBudget == 0.55
  {
    hide Life;
    var ops := seq(10, i => Observe(o));
    assert ops[..0] == [] && ops[..10] == ops;
    LifeStart(s, 0.8);
    forall i: nat | i < 10 ensures RelaxedAt(s, 0.8, ops, i) <==> i == 9 {
      FlagsAt(s, 0.8, ops, i + 1);
      AllTrue(Life(s, 0.8, ops[..i + 1]).recentDrops);
    }
    BudgetStays(s, 0.8, ops, 9);
    BudgetStep(s, 0.8, ops, 9);
  }

  /** A run of drops fills the window with true. */
  lemma {:induction false} FlagsAt(s: Settings, budget: real, ops: seq<Op>, i: nat)
    requires SettingsOk(s) && i <= |ops| && i <= s.windowSize
    requires forall j :: 0 <= j < |ops| ==> ops[j].Observe? && ops[j].o.dropped
    ensures var w := Life(s, budget, ops[..i]).recentDrops; |w| == i && forall j :: 0 <= j < i ==> w[j]
  {
    hide Life, MemoryOk, Do;
    if i > 0 {
      FlagsAt(s, budget, ops, i - 1);
      assert ops[..i][..i - 1] == ops[..i - 1];
      LifeStep(s, budget, ops[..i]);
      DoBudget(s, Life(s, budget, ops[..i - 1]), ops[i - 1]);
    } else {
      assert ops[..0] == [];
      LifeStart(s, budget);
    }
  }

  lemma {:induction false} AllTrue(w: seq<bool>)
    requires forall j :: 0 <= j < |w| ==> w[j]
    ensures CountTrue(w) == |w|
  {
    if |w| > 0 {
      AllTrue(w[..|w| - 1]);
    }
  }
}
