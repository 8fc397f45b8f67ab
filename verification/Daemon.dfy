/** The node protocol of aegis_router/daemon.py: mutable tables of one node, and the cluster's shared
    counters. Each method does to the cluster exactly what the corresponding step of the model does. */
module Daemon {
  import opened Network
  import opened Graph
  import opened Links
  import opened Reals
  import opened Packets
  import opened Sequences
  import opened DaemonState
  import opened DaemonLaws

  /** Everything a node draws from outside: random numbers, clock readings, and its solver's answers
      and peer risks, which may depend on all it has observed. */
  datatype Oracle = Oracle(random: nat -> real, clock: nat -> real,
      decide: (nat, Adjacency, set<NodeId>, Packet) -> Option<NodeId>, risk: nat -> Option<NodeId -> real>)

  class ClusterStats {
    var generated: nat
    var delivered: seq<Packet>
    var dropped: map<Reason, nat>
    var retransmissions: nat
    var sybilTouched: nat
    var transitSybilTouched: nat
    var redundantCopies: nat
    var sybilTouchedIds: set<nat>
    var transitTouchedIds: set<nat>
    var receiptsConfirmed: nat
    var receiptTimeouts: nat

    function Counts(): Stats
      reads this
    {
      Stats(generated, delivered, dropped, retransmissions, sybilTouchedIds, sybilTouched, transitTouchedIds,
            transitSybilTouched, redundantCopies, receiptsConfirmed, receiptTimeouts)
    }

    constructor ()
      ensures Counts() == EMPTY.stats
    {
      generated, delivered, dropped, retransmissions := 0, [], map[], 0;
      sybilTouched, transitSybilTouched, redundantCopies, sybilTouchedIds, transitTouchedIds := 0, 0, 0, {}, {};
      receiptsConfirmed, receiptTimeouts := 0, 0;
    }

    method CountSybilTouchOnce(p: Packet)
      modifies this`sybilTouched, this`sybilTouchedIds, this`transitSybilTouched, this`transitTouchedIds
      ensures Counts() == CountTouch(old(Counts()), p)
      ensures sybilTouched == old(sybilTouched) + if p.touchedSybil && p.id !in old(sybilTouchedIds) then 1 else 0
      ensures sybilTouchedIds == old(sybilTouchedIds) + if p.touchedSybil then {p.id} else {}
      ensures transitSybilTouched ==
        old(transitSybilTouched) + if p.touchedTransit && p.id !in old(transitTouchedIds) then 1 else 0
      ensures transitTouchedIds == old(transitTouchedIds) + if p.touchedTransit then {p.id} else {}
    {
      if p.touchedSybil && p.id !in sybilTouchedIds {
        sybilTouchedIds := sybilTouchedIds + {p.id};
        sybilTouched := sybilTouched + 1;
      }
      if p.touchedTransit && p.id !in transitTouchedIds {
        transitTouchedIds := transitTouchedIds + {p.id};
        transitSybilTouched := transitSybilTouched + 1;
      }
    }

    method RecordDelivery(p: Packet)
      modifies this
      ensures Counts() == DaemonState.RecordDelivery(old(Counts()), p)
      ensures delivered == old(delivered) + [p] && dropped == old(dropped)
    {
      delivered := delivered + [p];
      CountSybilTouchOnce(p);
    }

    method RecordDrop(reason: Reason, p: Packet)
      modifies this
      ensures Counts() == DaemonState.RecordDrop(old(Counts()), reason, p)
      ensures delivered == old(delivered)
      ensures dropped == old(dropped)[reason := 1 + if reason in old(dropped) then old(dropped[reason]) else 0]
    {
      dropped := dropped[reason := (if reason in dropped then dropped[reason] else 0) + 1];
      CountSybilTouchOnce(p);
    }

    method RecordRetransmissions(n: nat)
      modifies this`retransmissions
      ensures Counts() == old(Counts()).(retransmissions := old(retransmissions) + n)
    {
      retransmissions := retransmissions + n;
    }
  }

  /** A verdict on a hop of node `self`; a failure without a reason is a link loss. */
  function Verdict(self: NodeId, nxt: NodeId, success: bool, reason: Option<Reason>,
      receiptConfirmed: bool): Observation
  {
    Observation(nxt, success, !success, if reason.None? && !success then Some(LinkLoss) else reason, Some(self),
      receiptConfirmed)
  }

  /** What the solver hears about a forward at once: a failure of its own link, or without receipts the
      success of its own link. */
  function Told(env: Env, self: NodeId, nxt: NodeId, failed: nat): seq<Observation> {
    if nxt in env.off then [Verdict(self, nxt, false, Some(NodeDown), false)]
    else if failed > env.retries then [Verdict(self, nxt, false, Some(LinkLoss), false)]
    else if env.receipts then []
    else [Verdict(self, nxt, true, None, false)]
  }

  /** Every try takes the link's latency. */
  predicate Delayed(m: LinkMetrics, failed: nat, delay: real) {
    delay == m.latency * (1 + failed) as real
  }

  /** A signed packet on the way from its source to its first hop. */
  predicate FirstLeg(q: Packet, id: nat, src: NodeId, dst: NodeId, now: real, ttl: int) {
    && q.id == id && q.src == src && q.dst == dst && q.createdAt == now
    && q.signature == Some(Signed(src, Body(id, src, dst, now)))
    && q.path == [src] && q.visited == {src} && q.hops == 1 && q.ttl == ttl - 1
  }

  lemma LeavesSource(p: Packet, id: nat, src: NodeId, dst: NodeId, now: real, ttl: int, nxt: NodeId,
      sybils: set<NodeId>)
    requires p == NewPacket(id, src, dst, now, ttl).(signature := Some(Signed(src, Body(id, src, dst, now))))
    ensures forall q :: Leaves(p, q, src, nxt, sybils) && q.visited == p.visited + {src} ==>
      FirstLeg(q, id, src, dst, now, ttl)
  {
  }

  /** The solver is asked where to send the packet. */
  predicate Asks(env: Env, self: NodeId, p: Packet) {
    self != p.dst && self !in env.off && self !in p.visited && p.ttl > 0
  }

  /** The packet as the solver sees it. */
  function Asking(self: NodeId, p: Packet): Packet {
    p.(node := self, visited := p.visited + {self})
  }

  /** The choice holds the solver's answers from its k-th on: for the packet, and where a sibling has taken
      that hop, for the packet kept from the siblings' hops, with the peer risks learned by then. */
  ghost predicate Answered(o: Oracle, env: Env, p: Packet, exclude: set<NodeId>, k: nat, ch: Choice) {
    && ch.natural == o.decide(k, env.adj, env.off, p)
    && (ch.natural.Some? && ch.natural.value in exclude ==>
          && ch.risk == o.risk(k + 2)
          && ch.diverse == o.decide(k + 1, env.adj, env.off, p.(visited := p.visited + exclude)))
  }

  /** A packet without siblings goes where the solver says. */
  lemma PlainHop(o: Oracle, env: Env, p: Packet, k: nat, ch: Choice)
    requires ch.natural == o.decide(k, env.adj, env.off, p)
    ensures DiverseHop(env, {}, ch) == ch.natural && Chosen(p, {}, ch) == p && Answered(o, env, p, {}, k, ch)
  {
  }

  /** How the link then does has no bearing on the hop. */
  lemma SameChoice(o: Oracle, env: Env, p: Packet, exclude: set<NodeId>, k: nat, ch: Choice)
    ensures Chosen(p, exclude, ch).node == p.node
    ensures forall failed, deadline {:trigger ch.(failed := failed, deadline := deadline)} ::
      var ch' := ch.(failed := failed, deadline := deadline);
      && DiverseHop(env, exclude, ch') == DiverseHop(env, exclude, ch)
      && Chosen(p, exclude, ch') == Chosen(p, exclude, ch)
      && (Answered(o, env, p, exclude, k, ch) ==> Answered(o, env, p, exclude, k, ch'))
  {
  }

  /** A copy is stamped with the clock and sent where the solver says, from the given decision and reading on. */
  ghost predicate Sourced(o: Oracle, env: Env, id: nat, src: NodeId, dst: NodeId, copy: (real, Choice),
      taken: set<NodeId>, at: (nat, nat))
  {
    var p := SignedCopy(env, id, src, dst, copy.0);
    && copy.0 == o.clock(at.1)
    && (Asks(env, src, p) ==> Answered(o, env, Asking(src, p), taken, at.0, copy.1))
  }

  /** So is every copy of a packet, each kept from the hops of the earlier ones, and later than they. */
  ghost predicate AllSourced(o: Oracle, env: Env, w: World, id: nat, src: NodeId, dst: NodeId,
      copies: seq<(real, Choice)>, at: seq<(nat, nat)>)
  {
    && |at| == |copies|
    && (forall k :: 0 <= k < |copies| ==>
          Sourced(o, env, id, src, dst, copies[k], SendCopies(env, w, id, src, dst, copies[..k]).taken, at[k]))
    && (forall k :: 0 <= k < |at| - 1 ==> at[k].0 < at[k + 1].0 && at[k].1 < at[k + 1].1)
  }

  lemma NoCopies(o: Oracle, env: Env, w: World, id: nat, src: NodeId, dst: NodeId)
    ensures AllSourced(o, env, w, id, src, dst, [], []) && SendCopies(env, w, id, src, dst, []) == Sending(w, {}, true)
  {
  }

  lemma SourcedSnoc(o: Oracle, env: Env, w: World, id: nat, src: NodeId, dst: NodeId, copies: seq<(real, Choice)>,
      at: seq<(nat, nat)>, copy: (real, Choice), now: (nat, nat))
    requires AllSourced(o, env, w, id, src, dst, copies, at)
    requires Sourced(o, env, id, src, dst, copy, SendCopies(env, w, id, src, dst, copies).taken, now)
    requires |at| > 0 ==> at[|at| - 1].0 < now.0 && at[|at| - 1].1 < now.1
    ensures AllSourced(o, env, w, id, src, dst, copies + [copy], at + [now])
  {
    hide Sourced, SendCopies;
    var copies', at' := copies + [copy], at + [now];
    assert copies'[..|copies|] == copies;
    forall k | 0 <= k < |copies'|
      ensures Sourced(o, env, id, src, dst, copies'[k], SendCopies(env, w, id, src, dst, copies'[..k]).taken, at'[k])
    {
      assert k < |copies| ==> copies'[..k] == copies[..k];
    }
  }

  lemma CopiesSnoc(env: Env, w: World, id: nat, src: NodeId, dst: NodeId, copies: seq<(real, Choice)>,
      copy: (real, Choice))
    requires SendCopies(env, w, id, src, dst, copies).open
    ensures SendCopies(env, w, id, src, dst, copies + [copy])
         == SendCopy(env, SendCopies(env, w, id, src, dst, copies), id, src, dst, copy, |copies| == 0)
  {
    hide SendCopy;
    assert (copies + [copy])[..|copies|] == copies;
  }

  /** The messages of a list of datagrams, without their delays. */
  function Posted(sent: seq<(Packet, NodeId, real)>): set<(Packet, NodeId)> {
    set m | m in sent :: (m.0, m.1)
  }

  lemma PostedGrows(a: seq<(Packet, NodeId, real)>, b: seq<(Packet, NodeId, real)>)
    requires a <= b
    ensures Posted(a) <= Posted(b)
  {
  }

  lemma ElementsGrow<T>(a: seq<T>, b: seq<T>)
    requires a <= b
    ensures Elements(a) <= Elements(b)
  {
  }

  lemma PostedSnoc(sent: seq<(Packet, NodeId, real)>, m: (Packet, NodeId, real))
    ensures Posted(sent + [m]) == Posted(sent) + {(m.0, m.1)}
  {
  }

  /** The node's tables are its share of the cluster's. */
  ghost predicate Mine(n: NodeId, ids: set<nat>, pending: map<(nat, NodeId), real>, w: World) {
    && (forall id: nat :: id in ids <==> (n, id) in w.deliveredIds)
    && (forall id: nat, m: NodeId :: (id, m) in pending <==> Entry(n, id, m) in w.pending)
    && (forall id: nat, m: NodeId :: (id, m) in pending ==> pending[(id, m)] == w.pending[Entry(n, id, m)])
  }

  lemma MineSame(n: NodeId, ids: set<nat>, pending: map<(nat, NodeId), real>, w: World, w': World)
    requires Mine(n, ids, pending, w) && w'.deliveredIds == w.deliveredIds && w'.pending == w.pending
    ensures Mine(n, ids, pending, w')
  {
  }

  lemma MineHas(n: NodeId, ids: set<nat>, pending: map<(nat, NodeId), real>, w: World, id: nat)
    requires Mine(n, ids, pending, w)
    ensures id in ids <==> (n, id) in w.deliveredIds
    ensures forall m :: (id, m) in pending <==> Entry(n, id, m) in w.pending
  {
  }

  lemma MineAwait(n: NodeId, ids: set<nat>, pending: map<(nat, NodeId), real>, w: World, id: nat, nxt: NodeId,
      until: real)
    requires Mine(n, ids, pending, w)
    ensures Mine(n, ids, pending[(id, nxt) := until], Await(w, Entry(n, id, nxt), until))
  {
  }

  lemma MineDelivered(n: NodeId, ids: set<nat>, pending: map<(nat, NodeId), real>, w: World, id: nat, st: Stats)
    requires Mine(n, ids, pending, w)
    ensures Mine(n, ids + {id}, pending, w.(deliveredIds := w.deliveredIds + {(n, id)}, stats := st))
  {
  }

  lemma MineClosed(n: NodeId, ids: set<nat>, pending: map<(nat, NodeId), real>, w: World, id: nat, nxt: NodeId)
    requires Mine(n, ids, pending, w)
    ensures Mine(n, ids, pending - {(id, nxt)}, Confirm(w, Entry(n, id, nxt)))
    ensures Mine(n, ids, pending - {(id, nxt)}, Expire(w, Entry(n, id, nxt)))
  {
  }

  predicate Late(now: Option<real>, deadline: real) {
    now.None? || now.value > deadline
  }

  /** What the solver hears about late entries: one failure each. */
  function Failures(self: NodeId, late: seq<Entry>): seq<Observation> {
    if |late| == 0 then []
    else Failures(self, late[..|late| - 1]) + [Verdict(self, late[|late| - 1].next, false, Some(LinkLoss), false)]
  }

  /** The keys whose deadline has passed, each once. */
  method LateKeys(pending: map<(nat, NodeId), real>, now: Option<real>) returns (keys: seq<(nat, NodeId)>)
    ensures Distinct(keys) && forall k :: k in keys <==> k in pending && Late(now, pending[k])
  {
    keys := [];
    var rest := pending.Keys;
    while rest != {}
      invariant rest <= pending.Keys && Distinct(keys)
      invariant forall k :: k in keys <==> k in pending && k !in rest && Late(now, pending[k])
    {
      var k := PickNode(rest);
      if Late(now, pending[k]) {
        DistinctSnoc(keys, k);
        keys := keys + [k];
      }
      rest := rest - {k};
    }
  }

  lemma LateEntries(n: NodeId, ids: set<nat>, pending: map<(nat, NodeId), real>, w: World, now: Option<real>,
      keys: seq<(nat, NodeId)>, late: seq<Entry>)
    requires Mine(n, ids, pending, w) && Distinct(keys) && |late| == |keys|
    requires forall k :: k in keys <==> k in pending && Late(now, pending[k])
    requires forall i :: 0 <= i < |late| ==> late[i] == Entry(n, keys[i].0, keys[i].1)
    ensures Distinct(late) && forall e :: e in late <==> e in w.pending && e.node == n && Late(now, w.pending[e])
  {
  }

  lemma {:induction false} SweptAway(w: World, late: seq<Entry>)
    ensures Sweep(w, late).pending.Keys == w.pending.Keys - Elements(late)
  {
    if |late| > 0 {
      var init, e := late[..|late| - 1], late[|late| - 1];
      SweptAway(w, init);
      assert late == init + [e];
    }
  }

  lemma SweptNone(self: NodeId, w: World)
    ensures Sweep(w, []) == w && Failures(self, []) == []
  {
  }

  lemma SweptSnoc(self: NodeId, w: World, late: seq<Entry>, e: Entry)
    ensures Sweep(w, late + [e]) == Expire(Sweep(w, late), e)
    ensures Failures(self, late + [e]) == Failures(self, late) + [Verdict(self, e.next, false, Some(LinkLoss), false)]
  {
    hide Expire, Verdict;
    assert (late + [e])[..|late|] == late;
  }

  /** Each late entry is told as one failed delivery of its hop. */
  lemma {:induction false} FailuresAre(self: NodeId, late: seq<Entry>)
    ensures |Failures(self, late)| == |late| && forall k :: 0 <= k < |late| ==>
      Failures(self, late)[k] == Observation(late[k].next, false, true, Some(LinkLoss), Some(self), false)
  {
    if |late| > 0 {
      FailuresAre(self, late[..|late| - 1]);
    }
  }

  lemma OnTimeOnly(before: map<(nat, NodeId), real>, after: map<(nat, NodeId), real>, now: Option<real>,
      keys: seq<(nat, NodeId)>)
    requires forall k :: k in keys <==> k in before && Late(now, before[k])
    requires forall k :: k in after <==> k in before && k !in keys
    requires forall k :: k in after ==> after[k] == before[k]
    ensures after == map k | k in before && now.Some? && now.value <= before[k] :: before[k]
  {
    assert forall k :: k in before ==> (Late(now, before[k]) <==> k in keys);
  }

  lemma NoneLeft(n: NodeId, ids: set<nat>, pending: map<(nat, NodeId), real>, w: World, w': World, late: seq<Entry>)
    requires Mine(n, ids, pending, w') && w'.pending.Keys == w.pending.Keys - Elements(late)
    requires forall e :: e in late <==> e in w.pending && e.node == n
    ensures pending == map[]
  {
    forall k: (nat, NodeId) ensures k !in pending {
      var e := Entry(n, k.0, k.1);
      assert k == (k.0, k.1) && e !in w'.pending.Keys;
    }
  }

  class LocalNodeProtocol {
    const nodeId: NodeId
    const graph: P2PGraph
    const stats: ClusterStats
    const oracle: Oracle
    const sybilExtraDrop: real
    const ttl: int
    const linkRetries: nat
    const redundancy: nat
    const redundancyRiskTolerance: real
    const receipts: bool
    const receiptTimeout: real
    var deliveredIds: set<nat>
    var pendingReceipts: map<(nat, NodeId), real>
    var observed: seq<Observation>
    var sent: seq<(Packet, NodeId, real)>
    var receiptsSent: seq<(Receipt, NodeId)>
    var draws: nat
    var readings: nat
    var decisions: nat

    function Surroundings(): Env
      reads graph
    {
      Env(graph.adj, graph.offlineNodes, graph.sybilNodes, ttl, linkRetries, redundancy, receipts,
        redundancyRiskTolerance)
    }

    /** The node's tables are its share of the cluster's, and the counters are the cluster's. */
    ghost predicate Agrees(w: World)
      reads this, stats
    {
      && stats.Counts() == w.stats && Tables(w)
    }

    /** Every message the step added to the network is one that this node sent. */
    ghost predicate Backed(w: World, w': World)
      reads this`sent, this`receiptsSent
    {
      w'.frames <= w.frames + Posted(sent) && w'.receipts <= w.receipts + Elements(receiptsSent)
    }

    ghost predicate Tables(w: World)
      reads this
    {
      Mine(nodeId, deliveredIds, pendingReceipts, w) && Posted(sent) <= w.frames && Elements(receiptsSent) <= w.receipts
    }

    constructor (nodeId: NodeId, graph: P2PGraph, stats: ClusterStats, oracle: Oracle, sybilExtraDrop: real, ttl: int,
        linkRetries: nat, redundancy: nat, tolerance: real, receipts: bool, receiptTimeout: real)
      ensures this.nodeId == nodeId && this.graph == graph && this.stats == stats && Tables(EMPTY) && observed == []
      ensures this.redundancy >= 1 && this.redundancy >= redundancy && this.receipts == receipts && this.ttl == ttl
    {
      this.nodeId, this.graph, this.stats, this.oracle := nodeId, graph, stats, oracle;
      this.sybilExtraDrop, this.ttl, this.linkRetries := sybilExtraDrop, ttl, linkRetries;
      this.redundancy, this.redundancyRiskTolerance := if redundancy > 1 then redundancy else 1, tolerance;
      this.receipts, this.receiptTimeout := receipts, receiptTimeout;
      deliveredIds, pendingReceipts, observed, sent, receiptsSent := {}, map[], [], [], [];
      draws, readings, decisions := 0, 0, 0;
    }

    method ObserveOwnLink(nxt: NodeId, success: bool, reason: Option<Reason>, receiptConfirmed: bool)
      modifies this`observed
      ensures observed == old(observed) + [Verdict(nodeId, nxt, success, reason, receiptConfirmed)]
    {
      var why := if reason.None? && !success then Some(LinkLoss) else reason;
      observed := observed + [Observation(nxt, success, !success, why, Some(nodeId), receiptConfirmed)];
    }

    method Drop(reason: Reason, p: Packet, ghost w: World) returns (ghost w': World)
      requires Agrees(w)
      modifies stats
      ensures Agrees(w') && w' == DaemonState.Drop(w, reason, p) && Backed(w, w')
      ensures stats.delivered == old(stats.delivered)
    {
      w' := DaemonState.Drop(w, reason, p);
      MineSame(nodeId, deliveredIds, pendingReceipts, w, w');
      stats.RecordDrop(reason, p);
    }

    /** Sends a packet to its next hop, with retries; the verdict waits for a receipt in receipt mode. */
    method Forward(packet: Packet, nxt: NodeId, ghost w: World)
      returns (ghost w': World, ghost failed: nat, ghost deadline: real)
      requires Agrees(w) && nxt in Neighbors(graph.adj, nodeId) && packet.node == nodeId
      modifies this`pendingReceipts, this`observed, this`sent, this`draws, this`readings, stats
      ensures Agrees(w') && w' == DaemonState.Forward(Surroundings(), w, nodeId, packet, nxt, failed, deadline)
      ensures observed == old(observed) + Told(Surroundings(), nodeId, nxt, failed)
      ensures nxt !in graph.offlineNodes ==> Tried(oracle.random, old(draws), LossOf(nxt), linkRetries + 1, failed)
      ensures if nxt !in graph.offlineNodes && failed <= linkRetries
              then exists q, delay ::
                && sent == old(sent) + [(q, nxt, delay)] && Delayed(graph.adj[nodeId][nxt], failed, delay)
                && Leaves(packet, q, nodeId, nxt, graph.sybilNodes) && q.visited == packet.visited
              else sent == old(sent)
      ensures if nxt !in graph.offlineNodes && failed <= linkRetries && receipts
              then deadline == oracle.clock(old(readings)) + receiptTimeout && readings == old(readings) + 1
                   && pendingReceipts == old(pendingReceipts)[(packet.id, nxt) := deadline]
              else readings == old(readings) && pendingReceipts == old(pendingReceipts)
      ensures Backed(w, w') && old(sent) <= sent
    {
      hide Mine, Posted, RecordDrop, Await, Tried, Touched, Leaves;
      failed, deadline := 0, 0.0;
      if nxt in graph.offlineNodes {
        ObserveOwnLink(nxt, false, Some(NodeDown), false);
        w' := Drop(NodeDown, packet, w);
        return;
      }
      var p, tries, lost;
      ghost var w1;
      p, tries, lost, w1 := TryLink(packet, nxt, w);
      failed := tries;
      if lost {
        ObserveOwnLink(nxt, false, Some(LinkLoss), false);
        w' := Drop(if nxt in graph.sybilNodes then SybilDrop else LinkLoss, p, w1);
        return;
      }
      var delay := graph.adj[nodeId][nxt].latency * (1 + tries) as real;
      w', deadline := Post(p, nxt, delay, w1);
      OnwardLeaves(Surroundings(), packet, nodeId, nxt);
      ghost var q := sent[|sent| - 1].0;
      assert Leaves(packet, q, nodeId, nxt, graph.sybilNodes) && q.visited == packet.visited;
      assert Delayed(graph.adj[nodeId][nxt], failed, delay);
      assert sent == old(sent) + [(q, nxt, delay)];
    }

    /** Transmits until a draw reaches the loss probability or the retries are used up, and notes the
        packet's exposure either way. */
    method TryLink(packet: Packet, nxt: NodeId, ghost w: World)
      returns (p: Packet, tries: nat, lost: bool, ghost w': World)
      requires Agrees(w) && nxt in Neighbors(graph.adj, nodeId)
      modifies this`draws, stats`retransmissions
      ensures Agrees(w') && w' == w.(stats := Retried(w.stats, tries + if lost then 0 else 1))
      ensures p == Touched(Surroundings(), packet, nxt) && p.id == packet.id && (lost <==> tries > linkRetries)
      ensures Tried(oracle.random, old(draws), LossOf(nxt), linkRetries + 1, tries)
      ensures draws == old(draws) + tries + if lost then 0 else 1
      ensures stats.retransmissions == old(stats.retransmissions) + if lost then linkRetries else tries
    {
      hide Mine, Posted, Tried;
      var cursor;
      tries, lost, cursor := Transmit(oracle.random, draws, LossOf(nxt), linkRetries + 1);
      draws := cursor;
      var transmissions := tries + if lost then 0 else 1;
      stats.RecordRetransmissions(if transmissions > 1 then transmissions - 1 else 0);
      p := packet.(touchedSybil := packet.touchedSybil || nxt in graph.sybilNodes,
                   touchedTransit := packet.touchedTransit || (nxt in graph.sybilNodes && nxt != packet.dst));
      w' := w.(stats := Retried(w.stats, transmissions));
      MineSame(nodeId, deliveredIds, pendingReceipts, w, w');
    }

    /** A Sybil loses more, and no link loses everything. */
    function LossOf(nxt: NodeId): (x: real)
      requires nxt in Neighbors(graph.adj, nodeId)
      reads graph
      ensures nxt !in graph.sybilNodes ==> x <= graph.adj[nodeId][nxt].loss
      ensures nxt in graph.sybilNodes ==> x <= graph.adj[nodeId][nxt].loss + sybilExtraDrop
      ensures x <= 0.95 && (x < 0.95 ==>
        x == graph.adj[nodeId][nxt].loss + if nxt in graph.sybilNodes then sybilExtraDrop else 0.0)
    {
      Min(0.95, graph.adj[nodeId][nxt].loss + if nxt in graph.sybilNodes then sybilExtraDrop else 0.0)
    }

    /** The frame left the wire: open or give the verdict, and schedule the datagram. */
    method Post(packet: Packet, nxt: NodeId, delay: real, ghost w: World)
      returns (ghost w': World, ghost deadline: real)
      requires Agrees(w)
      modifies this`pendingReceipts, this`observed, this`sent, this`readings
      ensures Agrees(w')
      ensures var w1 := if receipts then Await(w, Entry(nodeId, packet.id, nxt), deadline) else w;
        w' == w1.(frames := w1.frames + {(Onward(packet, nodeId, nxt), nxt)})
      ensures observed == old(observed)
        + if receipts then [] else [Observation(nxt, true, false, None, Some(nodeId), false)]
      ensures sent == old(sent) + [(packet.(
        lastFrom := Some(nodeId), lastNeighbor := Some(nxt), path := packet.path + [nodeId], hops := packet.hops + 1,
        ttl := packet.ttl - 1), nxt, delay)]
      ensures if receipts
              then deadline == oracle.clock(old(readings)) + receiptTimeout && readings == old(readings) + 1
                   && pendingReceipts == old(pendingReceipts)[(packet.id, nxt) := deadline]
              else readings == old(readings) && pendingReceipts == old(pendingReceipts)
      ensures Backed(w, w') && old(sent) <= sent
    {
      hide Mine, Posted, RecordDrop;
      ghost var w1 := w;
      deadline := 0.0;
      if receipts {
        var until := oracle.clock(readings) + receiptTimeout;
        readings, deadline := readings + 1, until;
        MineAwait(nodeId, deliveredIds, pendingReceipts, w, packet.id, nxt, until);
        pendingReceipts := pendingReceipts[(packet.id, nxt) := until];
        w1 := Await(w, Entry(nodeId, packet.id, nxt), until);
      } else {
        ObserveOwnLink(nxt, true, None, false);
      }
      var p := packet.(lastFrom := Some(nodeId), lastNeighbor := Some(nxt), path := packet.path + [nodeId],
                       hops := packet.hops + 1, ttl := packet.ttl - 1);
      w' := w1.(frames := w1.frames + {(p, nxt)});
      MineSame(nodeId, deliveredIds, pendingReceipts, w1, w');
      PostedSnoc(sent, (p, nxt, delay));
      sent := sent + [(p, nxt, delay)];
    }

    method SendReceipt(r: Receipt, to: NodeId, ghost w: World) returns (ghost w': World)
      requires Agrees(w)
      modifies this`receiptsSent
      ensures Agrees(w') && w' == DaemonState.SendReceipt(Surroundings(), w, r, to)
      ensures receiptsSent == old(receiptsSent) + if to in graph.offlineNodes then [] else [(r, to)]
      ensures Backed(w, w')
    {
      w' := DaemonState.SendReceipt(Surroundings(), w, r, to);
      MineSame(nodeId, deliveredIds, pendingReceipts, w, w');
      if to !in graph.offlineNodes {
        receiptsSent := receiptsSent + [(r, to)];
      }
    }

    /** Destination side: proof of delivery, to travel back along the path. */
    method EmitReceipt(p: Packet, ghost w: World) returns (ghost w': World)
      requires Agrees(w) && p.dst == nodeId
      modifies this`receiptsSent
      ensures Agrees(w') && w' == DaemonState.EmitReceipt(Surroundings(), w, p)
      ensures receiptsSent == old(receiptsSent)
        + if |p.path| == 0 || p.path[|p.path| - 1] in graph.offlineNodes then []
          else [(ProofOf(p), p.path[|p.path| - 1])]
      ensures Backed(w, w')
    {
      if |p.path| == 0 {
        return w;
      }
      var body := Body(p.id, p.src, p.dst, p.createdAt);
      var r := Receipt(body, p.path, Some(Signed(nodeId, body)));
      ghost var w1 := w.(issued := w.issued + {Signed(nodeId, body)});
      MineSame(nodeId, deliveredIds, pendingReceipts, w, w1);
      w' := SendReceipt(r, p.path[|p.path| - 1], w1);
    }

    /** A verified packet at its destination: a receipt for every copy, a delivery for the first. */
    method Accept(packet: Packet, ghost w: World) returns (ghost w': World, ghost now: real)
      requires Agrees(w) && packet.dst == nodeId
      modifies this`receiptsSent, this`deliveredIds, this`readings, stats
      ensures Agrees(w') && w' == DaemonState.Accept(Surroundings(), w, packet, now) && readings >= old(readings)
      ensures receiptsSent == old(receiptsSent)
        + if !receipts || |packet.path| == 0 || packet.path[|packet.path| - 1] in graph.offlineNodes then []
          else [(ProofOf(packet), packet.path[|packet.path| - 1])]
      ensures deliveredIds == old(deliveredIds) + {packet.id}
      ensures if packet.id in old(deliveredIds)
              then stats.delivered == old(stats.delivered) && readings == old(readings)
              else && now == oracle.clock(old(readings)) && readings == old(readings) + 1
                   && stats.delivered == old(stats.delivered) + [packet.(latency := now - packet.createdAt)]
      ensures Backed(w, w')
    {
      hide Mine, RecordDelivery, DaemonState.EmitReceipt;
      now := 0.0;
      ghost var w1 := w.(accepted := w.accepted + {packet});
      MineSame(nodeId, deliveredIds, pendingReceipts, w, w1);
      if receipts {
        w1 := EmitReceipt(packet, w1);
      }
      assert packet.id in deliveredIds <==> (nodeId, packet.id) in w1.deliveredIds by {
        MineHas(nodeId, deliveredIds, pendingReceipts, w1, packet.id);
      }
      if packet.id in deliveredIds {
        return w1, now;
      }
      var p := packet.(latency := oracle.clock(readings) - packet.createdAt);
      now := oracle.clock(readings);
      readings := readings + 1;
      MineDelivered(nodeId, deliveredIds, pendingReceipts, w1, p.id, DaemonState.RecordDelivery(w1.stats, p));
      deliveredIds := deliveredIds + {p.id};
      w' := w1.(deliveredIds := w1.deliveredIds + {(nodeId, p.id)}, stats := DaemonState.RecordDelivery(w1.stats, p));
      stats.RecordDelivery(p);
    }

    /** By what the solver has learned the other hop is at most a tolerance riskier; without learned risks any is. */
    predicate SafeEnough(risk: Option<NodeId -> real>, other: NodeId, hop: NodeId) {
      risk.Some? ==> risk.value(other) - risk.value(hop) <= redundancyRiskTolerance
    }

    /** The hop for a redundant copy; asking for it adds the siblings' hops to `visited` and takes them out again. */
    method RiskAwareDiverseHop(packet: Packet, exclude: set<NodeId>)
      returns (hop: Option<NodeId>, p: Packet, ghost ch: Choice)
      modifies this`decisions
      ensures hop == DiverseHop(Surroundings(), exclude, ch) && p == Chosen(packet, exclude, ch)
      ensures decisions > old(decisions)
      ensures Answered(oracle, Surroundings(), packet, exclude, old(decisions), ch)
      ensures exclude !! packet.visited ==> p == packet
      ensures var natural := oracle.decide(old(decisions), graph.adj, graph.offlineNodes, packet);
        var away := packet.(visited := packet.visited + exclude);
        var diverse := oracle.decide(old(decisions) + 1, graph.adj, graph.offlineNodes, away);
        var risk := oracle.risk(old(decisions) + 2);
        if natural.None? || natural.value !in exclude then hop == natural && decisions == old(decisions) + 1
        else && decisions == old(decisions) + 2
             && (if diverse.None? then hop == natural
                 else hop == if SafeEnough(risk, diverse.value, natural.value) then diverse else natural)
    {
      p := packet;
      var natural := oracle.decide(decisions, graph.adj, graph.offlineNodes, p);
      decisions := decisions + 1;
      ch := Choice(natural, None, oracle.risk(decisions), 0, 0.0, 0.0);
      if natural.None? || natural.value !in exclude {
        return natural, p, ch;
      }
      p := p.(visited := p.visited + exclude);
      var diverse := oracle.decide(decisions, graph.adj, graph.offlineNodes, p);
      decisions := decisions + 1;
      p := p.(visited := p.visited - exclude);
      var risk := oracle.risk(decisions);
      ch := Choice(natural, diverse, risk, 0, 0.0, 0.0);
      if diverse.None? || diverse == natural {
        return natural, p, ch;
      }
      if risk.None? || risk.value(diverse.value) <= risk.value(natural.value) + redundancyRiskTolerance {
        return diverse, p, ch;
      }
      return natural, p, ch;
    }

    /** Asks the solver for a hop, and forwards the packet over it if it is a link of this node. */
    method Dispatch(packet: Packet, exclude: set<NodeId>, ghost w: World)
      returns (next: Option<NodeId>, ghost w': World, ghost ch: Choice)
      requires Agrees(w) && packet.node == nodeId
      modifies this`pendingReceipts, this`observed, this`sent, this`draws, this`readings, this`decisions, stats
      ensures Agrees(w') && (w', next) == DaemonState.Dispatch(Surroundings(), w, nodeId, packet, exclude, ch)
      ensures observed == old(observed) + if next.Some? then Told(Surroundings(), nodeId, next.value, ch.failed) else []
      ensures Answered(oracle, Surroundings(), packet, exclude, old(decisions), ch)
      ensures decisions > old(decisions) && readings >= old(readings)
      ensures next.Some? ==> next.value in Neighbors(graph.adj, nodeId)
      ensures next.Some? && next.value !in graph.offlineNodes ==>
        Tried(oracle.random, old(draws), LossOf(next.value), linkRetries + 1, ch.failed)
      ensures if Departs(next, ch.failed)
              then exists q, delay ::
                && sent == old(sent) + [(q, next.value, delay)]
                && Delayed(graph.adj[nodeId][next.value], ch.failed, delay)
                && Leaves(packet, q, nodeId, next.value, graph.sybilNodes)
                && (exclude !! packet.visited ==> q.visited == packet.visited)
              else sent == old(sent)
      ensures if Departs(next, ch.failed) && receipts
              then ch.deadline == oracle.clock(old(readings)) + receiptTimeout && readings == old(readings) + 1
                   && pendingReceipts == old(pendingReceipts)[(packet.id, next.value) := ch.deadline]
              else readings == old(readings) && pendingReceipts == old(pendingReceipts)
      ensures Backed(w, w') && old(sent) <= sent
    {
      hide Mine, RecordDrop, Posted, Tried, Told, DiverseHop, Chosen, Answered, DaemonState.Forward, DaemonState.Drop,
           Leaves, Delayed;
      var hop, p;
      if exclude != {} {
        hop, p, ch := RiskAwareDiverseHop(packet, exclude);
      } else {
        p := packet;
        hop := oracle.decide(decisions, graph.adj, graph.offlineNodes, p);
        decisions := decisions + 1;
        ch := Choice(hop, None, None, 0, 0.0, 0.0);
        PlainHop(oracle, Surroundings(), p, old(decisions), ch);
      }
      SameChoice(oracle, Surroundings(), packet, exclude, old(decisions), ch);
      if hop.None? || nodeId !in graph.adj || hop.value !in graph.adj[nodeId] {
        w' := Drop(NoRoute, p, w);
        return None, w', ch;
      }
      ghost var failed, deadline;
      w', failed, deadline := Forward(p, hop.value, w);
      ChosenLeaves(packet, exclude, ch, nodeId, hop.value, graph.sybilNodes);
      ch := ch.(failed := failed, deadline := deadline);
      next := hop;
    }

    /** The packet went out over the hop. */
    predicate Departs(next: Option<NodeId>, failed: nat)
      reads graph`offlineNodes
    {
      next.Some? && next.value !in graph.offlineNodes && failed <= linkRetries
    }

    /** Processes an arriving or freshly originated packet. */
    method HandleArrival(packet: Packet, exclude: set<NodeId>, ghost w: World)
      returns (next: Option<NodeId>, ghost w': World, ghost ch: Choice)
      requires Agrees(w)
      modifies this, stats
      ensures Agrees(w') && (w', next) == Arrive(Surroundings(), w, nodeId, packet, exclude, ch)
      ensures observed == old(observed) + if next.Some? then Told(Surroundings(), nodeId, next.value, ch.failed) else []
      ensures if Asks(Surroundings(), nodeId, packet)
              then && decisions > old(decisions)
                   && Answered(oracle, Surroundings(), Asking(nodeId, packet), exclude, old(decisions), ch)
              else decisions == old(decisions) && next.None?
      ensures readings >= old(readings) && (next.Some? ==> next.value in Neighbors(graph.adj, nodeId))
      ensures next.Some? && next.value !in graph.offlineNodes ==>
        Tried(oracle.random, old(draws), LossOf(next.value), linkRetries + 1, ch.failed)
      ensures if Departs(next, ch.failed)
              then exists q, delay ::
                && sent == old(sent) + [(q, next.value, delay)]
                && Delayed(graph.adj[nodeId][next.value], ch.failed, delay)
                && Leaves(packet, q, nodeId, next.value, graph.sybilNodes)
                && (exclude !! packet.visited + {nodeId} ==> q.visited == packet.visited + {nodeId})
              else sent == old(sent)
      ensures Departs(next, ch.failed) && receipts ==>
        && ch.deadline == oracle.clock(old(readings)) + receiptTimeout
        && pendingReceipts == old(pendingReceipts)[(packet.id, next.value) := ch.deadline]
      ensures !(Departs(next, ch.failed) && receipts) ==> pendingReceipts == old(pendingReceipts)
      ensures if nodeId == packet.dst && Verified(packet)
              then && deliveredIds == old(deliveredIds) + {packet.id}
                   && stats.delivered == old(stats.delivered) + (
                        if packet.id in old(deliveredIds) then []
                        else [packet.(node := nodeId, latency := oracle.clock(old(readings)) - packet.createdAt)])
                   && receiptsSent == old(receiptsSent) + (
                        if !receipts || |packet.path| == 0 || packet.path[|packet.path| - 1] in graph.offlineNodes
                        then [] else [(ProofOf(packet), packet.path[|packet.path| - 1])])
              else deliveredIds == old(deliveredIds) && receiptsSent == old(receiptsSent)
      ensures Backed(w, w') && old(sent) <= sent && old(receiptsSent) <= receiptsSent
    {
      hide Mine, RecordDrop, Posted, Tried, Told, Answered, DaemonState.Dispatch, DaemonState.Accept, DaemonState.Drop,
           Leaves, Delayed;
      ch := Choice(None, None, None, 0, 0.0, 0.0);
      next := None;
      var p := packet.(node := nodeId);
      if nodeId == p.dst {
        if !Verified(p) {
          w' := Drop(BadSignature, p, w);
          return;
        }
        ghost var now;
        w', now := Accept(p, w);
        ch := ch.(now := now);
        return;
      }
      if nodeId in graph.offlineNodes {
        w' := Drop(NodeDown, p, w);
        return;
      }
      if nodeId in p.visited {
        w' := Drop(Loop, p, w);
        return;
      }
      if p.ttl <= 0 {
        w' := Drop(TtlExpired, p, w);
        return;
      }
      p := p.(visited := p.visited + {nodeId});
      next, w', ch := Dispatch(p, exclude, w);
      if next.Some? { ArrivedLeaves(packet, nodeId, next.value, graph.sybilNodes); }
    }

    /** One signed copy, over a hop that no earlier copy has taken where possible. */
    method SendCopy(dst: NodeId, id: nat, taken: set<NodeId>, first: bool, ghost w: World)
      returns (next: Option<NodeId>, ghost w': World, ghost copy: (real, Choice))
      requires Agrees(w)
      modifies this, stats
      ensures Agrees(w')
      ensures DaemonState.SendCopy(Surroundings(), Sending(w, taken, true), id, nodeId, dst, copy, first)
           == Sending(w', if next.Some? then taken + {next.value} else taken, next.Some?)
      ensures Sourced(oracle, Surroundings(), id, nodeId, dst, copy, taken, (old(decisions), old(readings)))
      ensures readings > old(readings) && decisions >= old(decisions)
      ensures next.Some? ==> decisions > old(decisions) && next.value in Neighbors(graph.adj, nodeId)
      ensures dst != nodeId && nodeId !in taken ==>
        if Departs(next, copy.1.failed)
        then exists q, delay ::
          && sent == old(sent) + [(q, next.value, delay)]
          && Delayed(graph.adj[nodeId][next.value], copy.1.failed, delay)
          && FirstLeg(q, id, nodeId, dst, oracle.clock(old(readings)), ttl)
        else sent == old(sent)
      ensures Backed(w, w') && old(sent) <= sent && old(receiptsSent) <= receiptsSent
    {
      hide Mine, Posted, Arrive, Told, Answered, Tried, Leaves, Delayed, FirstLeg;
      var p := NewPacket(id, nodeId, dst, oracle.clock(readings), ttl);
      readings := readings + 1;
      p := p.(signature := Some(Signed(nodeId, p.Content())));
      ghost var w0 := w.(issued := w.issued + {p.signature.value});
      ghost var ch;
      MineSame(nodeId, deliveredIds, pendingReceipts, w, w0);
      next, w', ch := HandleArrival(p, taken, w0);
      if next.Some? { LeavesSource(p, id, nodeId, dst, p.createdAt, ttl, next.value, graph.sybilNodes); }
      copy := (p.createdAt, ch);
      if next.Some? && !first {
        stats.redundantCopies := stats.redundantCopies + 1;
        ghost var w1 := w'.(stats := w'.stats.(redundantCopies := w'.stats.redundantCopies + 1));
        MineSame(nodeId, deliveredIds, pendingReceipts, w', w1);
        w' := w1;
      }
    }

    /** Originates a packet: up to `redundancy` signed copies, each over a hop of its own where possible. */
    method SendNewPacket(dst: NodeId, id: nat, ghost w: World)
      returns (ghost w': World, ghost copies: seq<(real, Choice)>, ghost at: seq<(nat, nat)>)
      requires Agrees(w)
      modifies this, stats
      ensures Agrees(w') && |copies| <= redundancy
      ensures var s := SendCopies(Surroundings(), w, id, nodeId, dst, copies);
        s.world == w' && (s.open ==> |copies| == redundancy)
      ensures AllSourced(oracle, Surroundings(), w, id, nodeId, dst, copies, at)
      ensures |at| > 0 ==> at[0] == (old(decisions), old(readings))
      ensures Backed(w, w') && old(sent) <= sent && old(receiptsSent) <= receiptsSent
    {
      hide Mine, Posted, DaemonState.SendCopy, SendCopies, Sourced, AllSourced;
      copies, at, w' := [], [], w;
      var taken: set<NodeId> := {};
      NoCopies(oracle, Surroundings(), w, id, nodeId, dst);
      for i := 0 to redundancy
        invariant Agrees(w') && |copies| == |at| == i
        invariant Backed(w, w') && old(sent) <= sent && old(receiptsSent) <= receiptsSent
        invariant SendCopies(Surroundings(), w, id, nodeId, dst, copies) == Sending(w', taken, true)
        invariant AllSourced(oracle, Surroundings(), w, id, nodeId, dst, copies, at)
        invariant (if i == 0 then (decisions, readings) else at[0]) == old((decisions, readings))
        invariant i > 0 ==> at[i - 1].0 < decisions && at[i - 1].1 < readings
      {
        ghost var now := (decisions, readings);
        ghost var copy;
        var nxt;
        ghost var w1, sent1, receipts1 := w', sent, receiptsSent;
        nxt, w', copy := SendCopy(dst, id, taken, i == 0, w');
        PostedGrows(sent1, sent);
        ElementsGrow(receipts1, receiptsSent);
        SourcedSnoc(oracle, Surroundings(), w, id, nodeId, dst, copies, at, copy, now);
        CopiesSnoc(Surroundings(), w, id, nodeId, dst, copies, copy);
        copies, at := copies + [copy], at + [now];
        if nxt.None? {
          return;
        }
        taken := taken + {nxt.value};
      }
    }

    /** Confirms the open verdict on one hop of this node. */
    method CloseVerdict(id: nat, nxt: NodeId, ghost w: World) returns (ghost w': World)
      requires Agrees(w) && (id, nxt) in pendingReceipts
      modifies this`pendingReceipts, this`observed, stats`receiptsConfirmed
      ensures Agrees(w') && w' == Confirm(w, Entry(nodeId, id, nxt)) && Backed(w, w')
      ensures pendingReceipts == old(pendingReceipts) - {(id, nxt)}
      ensures stats.receiptsConfirmed == old(stats.receiptsConfirmed) + 1
      ensures observed == old(observed) + [Observation(nxt, true, false, None, Some(nodeId), true)]
    {
      hide Mine, Posted;
      MineClosed(nodeId, deliveredIds, pendingReceipts, w, id, nxt);
      pendingReceipts := pendingReceipts - {(id, nxt)};
      w' := Confirm(w, Entry(nodeId, id, nxt));
      stats.receiptsConfirmed := stats.receiptsConfirmed + 1;
      ObserveOwnLink(nxt, true, None, true);
    }

    /** Forwarder side: credit the hop this node used, and relay the receipt one node further back. */
    method HandleReceipt(r: Receipt, ghost w: World) returns (ghost w': World)
      requires Agrees(w)
      modifies this`pendingReceipts, this`observed, this`receiptsSent, stats`receiptsConfirmed
      ensures Agrees(w') && w' == Credit(Surroundings(), w, nodeId, r)
      ensures observed == old(observed)
        + match Settles(w, nodeId, r) case None => [] case Some(e) => [Verdict(nodeId, e.next, true, None, true)]
      ensures forall i: nat ::
        Proves(r, nodeId, i) && (r.body.id, HopAfter(r.path, i, r.body.dst)) in old(pendingReceipts) ==>
        var nxt := HopAfter(r.path, i, r.body.dst);
        && pendingReceipts == old(pendingReceipts) - {(r.body.id, nxt)}
        && stats.receiptsConfirmed == old(stats.receiptsConfirmed) + 1
        && observed == old(observed) + [Observation(nxt, true, false, None, Some(nodeId), true)]
        && receiptsSent == old(receiptsSent)
             + if i > 0 && r.path[i - 1] !in graph.offlineNodes then [(r, r.path[i - 1])] else []
      ensures (forall i: nat ::
                 !(Proves(r, nodeId, i) && (r.body.id, HopAfter(r.path, i, r.body.dst)) in old(pendingReceipts)))
        ==> pendingReceipts == old(pendingReceipts) && stats.receiptsConfirmed == old(stats.receiptsConfirmed)
            && observed == old(observed) && receiptsSent == old(receiptsSent)
      ensures Backed(w, w') && old(receiptsSent) <= receiptsSent
    {
      hide Mine, Posted, Proves, Genuine, IndexOf, Confirm, Credit, Settles;
      if !Genuine(r) {
        ProvesNothing(Surroundings(), w, r, nodeId);
        return w;
      }
      var at := IndexOf(r.path, nodeId);
      if at.None? {
        ProvesNothing(Surroundings(), w, r, nodeId);
        return w;
      }
      var i := at.value;
      ProvesHop(Surroundings(), w, r, nodeId, i);
      var nxt := if i + 1 < |r.path| then r.path[i + 1] else r.body.dst;
      var key, id := (r.body.id, nxt), r.body.id;
      MineHas(nodeId, deliveredIds, pendingReceipts, w, id);
      if key !in pendingReceipts {
        return w;
      }
      w' := CloseVerdict(id, nxt, w);
      if i > 0 {
        w' := SendReceipt(r, r.path[i - 1], w');
      }
    }

    /** Times out one pending verdict of this node. */
    method ExpireVerdict(id: nat, nxt: NodeId, ghost w: World) returns (ghost w': World)
      requires Agrees(w) && (id, nxt) in pendingReceipts
      modifies this`pendingReceipts, this`observed, stats`receiptTimeouts
      ensures Agrees(w') && w' == Expire(w, Entry(nodeId, id, nxt))
      ensures w'.frames == w.frames && w'.receipts == w.receipts
      ensures pendingReceipts == old(pendingReceipts) - {(id, nxt)}
      ensures stats.receiptTimeouts == old(stats.receiptTimeouts) + 1
      ensures observed == old(observed) + [Verdict(nodeId, nxt, false, Some(LinkLoss), false)]
    {
      hide Mine, Posted;
      MineClosed(nodeId, deliveredIds, pendingReceipts, w, id, nxt);
      pendingReceipts := pendingReceipts - {(id, nxt)};
      stats.receiptTimeouts := stats.receiptTimeouts + 1;
      ObserveOwnLink(nxt, false, Some(LinkLoss), false);
      w' := Expire(w, Entry(nodeId, id, nxt));
    }

    /** Times out every pending verdict whose deadline has passed; no time at all means the end of time. */
    method SweepReceiptTimeouts(now: Option<real>, ghost w: World) returns (ghost w': World, ghost late: seq<Entry>)
      requires Agrees(w)
      modifies this`pendingReceipts, this`observed, stats`receiptTimeouts
      ensures Agrees(w') && w' == Sweep(w, late) && Distinct(late)
      ensures forall e :: e in late <==> e in w.pending && e.node == nodeId && Late(now, w.pending[e])
      ensures observed == old(observed) + Failures(nodeId, late)
      ensures pendingReceipts ==
        map k | k in old(pendingReceipts) && now.Some? && now.value <= old(pendingReceipts)[k] ::
          old(pendingReceipts)[k]
      ensures stats.receiptTimeouts == old(stats.receiptTimeouts) + |late|
      ensures |observed| == old(|observed|) + |late| && forall k :: 0 <= k < |late| ==>
        observed[|old(observed)| + k] == Observation(late[k].next, false, true, Some(LinkLoss), Some(nodeId), false)
      ensures w'.frames == w.frames && w'.receipts == w.receipts
    {
      hide Mine, Posted, Late, Sweep, Failures, Expire;
      var keys := LateKeys(pendingReceipts, now);
      ghost var pending := pendingReceipts;
      late, w' := [], w;
      SweptNone(nodeId, w);
      for i := 0 to |keys|
        invariant Agrees(w') && |late| == i && w' == Sweep(w, late)
        invariant forall k :: 0 <= k < i ==> late[k] == Entry(nodeId, keys[k].0, keys[k].1)
        invariant observed == old(observed) + Failures(nodeId, late)
        invariant w'.frames == w.frames && w'.receipts == w.receipts
        invariant forall k :: k in pendingReceipts <==> k in old(pendingReceipts) && k !in keys[..i]
        invariant forall k :: k in pendingReceipts ==> pendingReceipts[k] == old(pendingReceipts)[k]
        invariant stats.receiptTimeouts == old(stats.receiptTimeouts) + i
      {
        assert keys[..i + 1] == keys[..i] + [keys[i]];
        var (id, nxt) := keys[i];
        w' := ExpireVerdict(id, nxt, w');
        SweptSnoc(nodeId, w, late, Entry(nodeId, id, nxt));
        late := late + [Entry(nodeId, id, nxt)];
      }
      assert keys[..|keys|] == keys;
      LateEntries(nodeId, deliveredIds, pending, w, now, keys, late);
      FailuresAre(nodeId, late);
      OnTimeOnly(pending, pendingReceipts, now, keys);
    }

    /** Shutdown: nothing of this node stays pending. */
    method FlushPendingReceipts(ghost w: World) returns (ghost w': World, ghost late: seq<Entry>)
      requires Agrees(w)
      modifies this`pendingReceipts, this`observed, stats`receiptTimeouts
      ensures Agrees(w') && w' == Sweep(w, late) && Distinct(late) && pendingReceipts == map[]
      ensures forall e :: e in late <==> e in w.pending && e.node == nodeId
      ensures stats.receiptTimeouts == old(stats.receiptTimeouts) + |late|
      ensures w'.frames == w.frames && w'.receipts == w.receipts
    {
      w', late := SweepReceiptTimeouts(None, w);
      SweptAway(w, late);
      NoneLeft(nodeId, deliveredIds, pendingReceipts, w, w', late);
    }
  }
}
