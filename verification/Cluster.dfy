/** The cluster that run_local_cluster of aegis_router/daemon.py drives: all nodes share one graph and one
    set of counters, and take turns. Whatever the order of originations, deliveries, returning receipts and
    sweeps, the tables of all nodes together are the state of one run of the model. */
module Cluster {
  import opened Network
  import opened Graph
  import opened Packets
  import opened Sequences
  import opened DaemonState
  import opened DaemonLaws
  import opened DaemonSafety
  import opened DaemonFrames
  import opened Daemon

  /** The node is n, and shares graph and counters with the others. */
  predicate Member(p: LocalNodeProtocol, n: NodeId, graph: P2PGraph, stats: ClusterStats, ttl: int) {
    p.nodeId == n && p.graph == graph && p.stats == stats && p.ttl == ttl
  }

  /** One node per node of the graph, with empty tables. */
  method NewProtocols(graph: P2PGraph, stats: ClusterStats, oracles: NodeId -> Oracle, sybilExtraDrop: real, ttl: int,
      linkRetries: nat, redundancy: nat, tolerance: real, receipts: bool, receiptTimeout: real)
    returns (protocols: map<NodeId, LocalNodeProtocol>)
    ensures protocols.Keys == graph.adj.Keys
    ensures forall n :: n in protocols ==> Member(protocols[n], n, graph, stats, ttl) && fresh(protocols[n])
    ensures forall n :: n in protocols ==> protocols[n].Tables(EMPTY) && protocols[n].receipts == receipts
  {
    hide Mine, Posted;
    protocols := map[];
    var rest := graph.adj.Keys;
    while rest != {}
      invariant rest <= graph.adj.Keys && protocols.Keys == graph.adj.Keys - rest
      invariant forall n :: n in protocols ==> Member(protocols[n], n, graph, stats, ttl) && fresh(protocols[n])
      invariant forall n :: n in protocols ==> protocols[n].Tables(EMPTY) && protocols[n].receipts == receipts
    {
      var n := PickNode(rest);
      var p := new LocalNodeProtocol(n, graph, stats, oracles(n), sybilExtraDrop, ttl, linkRetries, redundancy,
        tolerance, receipts, receiptTimeout);
      protocols := protocols[n := p];
      rest := rest - {n};
    }
  }

  /** A node originates the packet with the given number, and the counters count it. */
  method SendCounted(p: LocalNodeProtocol, dst: NodeId, id: nat, ghost w: World)
    returns (ghost w': World, ghost copies: seq<(real, Choice)>)
    requires p.Agrees(w) && id == |w.origin|
    modifies p, p.stats
    ensures p.Agrees(w') && p.Backed(w, w') && old(p.sent) <= p.sent && old(p.receiptsSent) <= p.receiptsSent
    ensures |copies| <= p.redundancy && p.stats.generated == old(p.stats.generated) + 1
    ensures var w0 := w.(origin := w.origin + [(p.nodeId, dst)]);
      w' == Generated(SendCopies(p.Surroundings(), w0, |w.origin|, p.nodeId, dst, copies).world)
  {
    hide SendCopies, Mine, Posted, Elements, AllSourced;
    ghost var w0 := w.(origin := w.origin + [(p.nodeId, dst)]);
    MineSame(p.nodeId, p.deliveredIds, p.pendingReceipts, w, w0);
    ghost var at;
    w', copies, at := p.SendNewPacket(dst, id, w0);
    CopiesOrigin(p.Surroundings(), w0, id, p.nodeId, dst, copies);
    MineSame(p.nodeId, p.deliveredIds, p.pendingReceipts, w', Generated(w'));
    w' := Generated(w');
    p.stats.generated := p.stats.generated + 1;
  }

  /** A node handles a packet. */
  method TakePacket(p: LocalNodeProtocol, packet: Packet, ghost w: World) returns (ghost w': World, ghost ch: Choice)
    requires p.Agrees(w)
    modifies p, p.stats
    ensures p.Agrees(w') && p.Backed(w, w') && old(p.sent) <= p.sent && old(p.receiptsSent) <= p.receiptsSent
    ensures w' == Arrive(p.Surroundings(), w, p.nodeId, packet, {}, ch).0
  {
    hide Mine, Posted, Elements, Arrive, Leaves, Told, Answered, LocalNodeProtocol.Departs;
    var hop;
    hop, w', ch := p.HandleArrival(packet, {}, w);
  }

  /** A node handles a receipt. */
  method TakeReceipt(p: LocalNodeProtocol, r: Receipt, ghost w: World) returns (ghost w': World)
    requires p.Agrees(w)
    modifies p, p.stats
    ensures p.Agrees(w') && p.Backed(w, w') && old(p.sent) <= p.sent && old(p.receiptsSent) <= p.receiptsSent
    ensures w' == Credit(p.Surroundings(), w, p.nodeId, r)
  {
    hide Mine, Posted, Elements, Credit, Proves;
    w' := p.HandleReceipt(r, w);
  }

  /** A node's late verdicts time out; at the end of time all do. */
  method TakeTime(p: LocalNodeProtocol, now: Option<real>, ghost w: World)
    returns (ghost w': World, ghost late: seq<Entry>)
    requires p.Agrees(w)
    modifies p, p.stats
    ensures p.Agrees(w') && p.Backed(w, w') && old(p.sent) <= p.sent && old(p.receiptsSent) <= p.receiptsSent
    ensures w' == Sweep(w, late) && Distinct(late) && forall e :: e in late ==> e in w.pending && e.node == p.nodeId
    ensures now.None? ==> p.pendingReceipts == map[]
  {
    hide Mine, Posted, Elements, Sweep, Late, Failures;
    if now.None? {
      w', late := p.FlushPendingReceipts(w);
    } else {
      w', late := p.SweepReceiptTimeouts(now, w);
    }
  }

  /** The attacker posted the message. */
  ghost predicate InjectedPacket(acts: seq<Action>, f: (Packet, NodeId)) {
    exists i :: 0 <= i < |acts| && acts[i] == InjectPacket(f.1, f.0)
  }

  ghost predicate InjectedReceipt(acts: seq<Action>, r: (Receipt, NodeId)) {
    exists i :: 0 <= i < |acts| && acts[i] == InjectReceipt(r.1, r.0)
  }

  class LocalCluster {
    const graph: P2PGraph
    const stats: ClusterStats
    const ttl: int
    ghost const links: Adjacency
    ghost const corrupt: set<NodeId>
    var protocols: map<NodeId, LocalNodeProtocol>
    var packetIds: nat
    ghost var acts: seq<Action>

    /** What happened so far is a run, and the shared state is what it leaves behind. */
    ghost predicate Valid()
      reads this, graph, stats, protocols.Values
    {
      && Run(links, ttl, corrupt, acts) && packetIds == |After(acts).origin| && stats.Counts() == After(acts).stats
      && protocols.Keys == links.Keys && (forall n :: Neighbors(graph.adj, n) == Neighbors(links, n))
      && (forall e :: e in After(acts).pending ==> e.node in protocols)
      && (forall n :: n in protocols ==> Member(protocols[n], n, graph, stats, ttl))
      && (forall n :: n in protocols ==> protocols[n].Tables(After(acts))) && AllSent()
    }

    /** Every message in the network was sent by a node or injected. */
    ghost predicate AllSent()
      reads this, protocols.Values
    {
      && (forall f :: f in After(acts).frames ==>
            InjectedPacket(acts, f) || exists n :: n in protocols && f in Posted(protocols[n].sent))
      && (forall r :: r in After(acts).receipts ==>
            InjectedReceipt(acts, r) || exists n :: n in protocols && r in Elements(protocols[n].receiptsSent))
    }

    /** One node per node of the graph, with tables of its own. */
    constructor (graph: P2PGraph, oracles: NodeId -> Oracle, sybilExtraDrop: real, ttl: int, linkRetries: nat,
        redundancy: nat, tolerance: real, receipts: bool, receiptTimeout: real, ghost corrupt: set<NodeId>)
      ensures Valid() && this.graph == graph && this.ttl == ttl && links == graph.adj && acts == [] && fresh(stats)
      ensures this.corrupt == corrupt
      ensures forall n :: n in protocols ==> fresh(protocols[n]) && protocols[n].receipts == receipts
    {
      var stats := new ClusterStats();
      this.graph, this.stats, this.ttl, this.links, this.corrupt := graph, stats, ttl, graph.adj, corrupt;
      this.packetIds, this.acts := 0, [];
      var nodes := NewProtocols(graph, stats, oracles, sybilExtraDrop, ttl, linkRetries, redundancy, tolerance,
        receipts, receiptTimeout);
      protocols := nodes;
    }

    /** All but node n's share of Valid. */
    ghost predicate Waiting(n: NodeId, before: seq<Action>)
      requires n in protocols
      reads this`protocols, graph, protocols.Values - {protocols[n]}
    {
      && Run(links, ttl, corrupt, before) && protocols.Keys == links.Keys
      && (forall x :: Neighbors(graph.adj, x) == Neighbors(links, x))
      && (forall e :: e in After(before).pending ==> e.node in protocols)
      && (forall m :: m in protocols ==> Member(protocols[m], m, graph, stats, ttl))
      && (forall m :: m in protocols && m != n ==> protocols[m] != protocols[n] && protocols[m].Tables(After(before)))
    }

    /** All but node n's share of AllSent; it had sent `sent` and `receipts`. */
    ghost predicate OthersSent(n: NodeId, before: seq<Action>, sent: seq<(Packet, NodeId, real)>,
        receipts: seq<(Receipt, NodeId)>)
      requires n in protocols
      reads this`protocols, protocols.Values - {protocols[n]}
    {
      && (forall f :: f in After(before).frames ==>
            || InjectedPacket(before, f) || f in Posted(sent)
            || exists m :: m in protocols && protocols[m] != protocols[n] && f in Posted(protocols[m].sent))
      && (forall r :: r in After(before).receipts ==>
            || InjectedReceipt(before, r) || r in Elements(receipts)
            || exists m :: m in protocols && protocols[m] != protocols[n] && r in Elements(protocols[m].receiptsSent))
    }

    lemma SentBefore(n: NodeId)
      requires AllSent() && n in protocols
      ensures OthersSent(n, acts, protocols[n].sent, protocols[n].receiptsSent)
    {
      hide After, Posted, Elements, InjectedPacket, InjectedReceipt;
    }

    /** Node n has sent what it had sent and all that an action of its own added to the network. */
    ghost predicate Sends(n: NodeId, a: Action, w: World, w': World, sent: seq<(Packet, NodeId, real)>,
        receipts: seq<(Receipt, NodeId)>)
      requires n in protocols
      reads this`protocols, protocols[n]
    {
      && sent <= protocols[n].sent && receipts <= protocols[n].receiptsSent
      && w'.frames <= w.frames + Posted(protocols[n].sent) + (if a.InjectPacket? then {(a.packet, a.to)} else {})
      && w'.receipts <=
         w.receipts + Elements(protocols[n].receiptsSent) + if a.InjectReceipt? then {(a.receipt, a.to)} else {}
    }

    lemma SendsBacked(n: NodeId, a: Action, w: World, w0: World, w1: World, w': World,
        sent: seq<(Packet, NodeId, real)>, receipts: seq<(Receipt, NodeId)>)
      requires n in protocols && protocols[n].Backed(w0, w1)
      requires sent <= protocols[n].sent && receipts <= protocols[n].receiptsSent
      requires w0.frames == w.frames && w0.receipts == w.receipts
      requires w1.frames == w'.frames && w1.receipts == w'.receipts
      ensures Sends(n, a, w, w', sent, receipts)
    {
      hide Posted, Elements;
    }

    lemma SentAfter(n: NodeId, a: Action, before: seq<Action>, sent: seq<(Packet, NodeId, real)>,
        receipts: seq<(Receipt, NodeId)>)
      requires n in protocols && OthersSent(n, before, sent, receipts) && acts == before + [a]
      requires After(acts) == Apply(After(before), a)
      requires Sends(n, a, After(before), Apply(After(before), a), sent, receipts)
      ensures AllSent()
    {
      hide After, Apply, Posted, Elements;
      PostedGrows(sent, protocols[n].sent);
      ElementsGrow(receipts, protocols[n].receiptsSent);
      assert acts[|before|] == a && forall i :: 0 <= i < |before| ==> acts[i] == before[i];
    }

    lemma OthersWait(n: NodeId)
      requires Valid() && n in protocols
      ensures Waiting(n, acts)
      ensures OthersSent(n, acts, protocols[n].sent, protocols[n].receiptsSent)
      ensures Member(protocols[n], n, graph, stats, ttl) && protocols[n].Agrees(After(acts))
      ensures EnvOk(links, ttl, protocols[n].Surroundings()) && packetIds == |After(acts).origin|
    {
      SentBefore(n);
      hide After, Run, Mine, Posted, Elements, OthersSent, InjectedPacket, InjectedReceipt;
    }

    /** After an action at one node the others' tables are still their share. */
    lemma StepValid(n: NodeId, a: Action, before: seq<Action>, sent: seq<(Packet, NodeId, real)>,
        receipts: seq<(Receipt, NodeId)>)
      requires n in protocols && Waiting(n, before) && At(a, n) && acts == before + [a]
      requires OthersSent(n, before, sent, receipts)
      requires Sends(n, a, After(before), Apply(After(before), a), sent, receipts)
      requires Enabled(links, ttl, corrupt, After(before), a)
      requires protocols[n].Agrees(Apply(After(before), a))
      requires packetIds == |After(before).origin| + if a.Originate? then 1 else 0
      ensures Valid() && After(acts) == Apply(After(before), a)
    {
      hide Beyond, Mine, Enabled, Apply, Posted, Elements, Neighbors, AllSent, OthersSent, Sends;
      var w, w' := After(before), Apply(After(before), a);
      RunSnoc(links, ttl, corrupt, before, a);
      SentAfter(n, a, before, sent, receipts);
      ApplyBeyond(n, w, a);
      ApplyNumbers(w, a);
      BeyondTables(n, w, w');
      forall m | m in protocols ensures protocols[m].Tables(w') {
        if m != n {
          OthersMine(n, m, protocols[m].deliveredIds, protocols[m].pendingReceipts, w, w');
        }
      }
      hide Run, After;
    }

    /** A new packet between two nodes: its copies go out, then it is counted. */
    method SendPacket(src: NodeId, dst: NodeId)
      requires Valid() && src in protocols && dst in protocols && src != dst
      modifies this`packetIds, this`acts, stats, protocols[src]
      ensures Valid() && packetIds == old(packetIds) + 1 && stats.generated == old(stats.generated) + 1
      ensures exists env, copies :: acts == old(acts) + [Originate(env, src, dst, copies)]
    {
      hide After, SendCopies, Mine, Posted, Elements, Run, Waiting, EnvOk, LocalNodeProtocol.Backed;
      OthersWait(src);
      hide Valid, OthersSent, AllSent, Sends;
      ghost var sent, receipts := protocols[src].sent, protocols[src].receiptsSent;
      ghost var w, env := After(acts), protocols[src].Surroundings();
      ghost var w', copies := SendCounted(protocols[src], dst, packetIds, w);
      packetIds := packetIds + 1;
      acts := acts + [Originate(env, src, dst, copies)];
      SendsBacked(src, Originate(env, src, dst, copies), w, w, w', w', sent, receipts);
      StepValid(src, Originate(env, src, dst, copies), old(acts), sent, receipts);
    }

    /** The network hands a node a packet that was posted to it at some time. */
    method DeliverPacket(n: NodeId, p: Packet)
      requires Valid() && n in protocols && (p, n) in After(acts).frames
      modifies this`acts, stats, protocols[n]
      ensures Valid() && exists env, ch :: acts == old(acts) + [Receive(env, n, p, ch)]
    {
      hide After, Mine, Posted, Elements, Arrive, Run, Waiting, LocalNodeProtocol.Backed;
      OthersWait(n);
      hide Valid, OthersSent, AllSent, Sends;
      ghost var sent, receipts := protocols[n].sent, protocols[n].receiptsSent;
      ghost var env := protocols[n].Surroundings();
      ghost var w := After(acts);
      ghost var w', ch := TakePacket(protocols[n], p, w);
      acts := acts + [Receive(env, n, p, ch)];
      SendsBacked(n, Receive(env, n, p, ch), w, w, w', w', sent, receipts);
      StepValid(n, Receive(env, n, p, ch), old(acts), sent, receipts);
    }

    /** The network hands a node a receipt. */
    method DeliverReceipt(n: NodeId, r: Receipt)
      requires Valid() && n in protocols && (r, n) in After(acts).receipts
      modifies this`acts, stats, protocols[n]
      ensures Valid() && exists env :: acts == old(acts) + [Return(env, n, r)]
    {
      hide After, Mine, Posted, Elements, Credit, Run, Waiting, LocalNodeProtocol.Backed;
      OthersWait(n);
      hide Valid, OthersSent, AllSent, Sends;
      ghost var sent, receipts := protocols[n].sent, protocols[n].receiptsSent;
      ghost var env := protocols[n].Surroundings();
      ghost var w := After(acts);
      ghost var w' := TakeReceipt(protocols[n], r, w);
      acts := acts + [Return(env, n, r)];
      SendsBacked(n, Return(env, n, r), w, w, w', w', sent, receipts);
      StepValid(n, Return(env, n, r), old(acts), sent, receipts);
    }

    /** One node's late verdicts time out. */
    method SweepNode(n: NodeId, now: Option<real>)
      requires Valid() && n in protocols
      modifies this`acts, stats, protocols[n]
      ensures Valid() && (exists late :: acts == old(acts) + [Timeout(late)] && At(Timeout(late), n))
      ensures now.None? ==> protocols[n].pendingReceipts == map[]
    {
      hide After, Mine, Posted, Elements, Sweep, Run, Waiting, LocalNodeProtocol.Backed;
      OthersWait(n);
      hide Valid, OthersSent, AllSent, Sends;
      ghost var sent, receipts := protocols[n].sent, protocols[n].receiptsSent;
      ghost var w := After(acts);
      ghost var w', late := TakeTime(protocols[n], now, w);
      acts := acts + [Timeout(late)];
      SendsBacked(n, Timeout(late), w, w, w', w', sent, receipts);
      StepValid(n, Timeout(late), old(acts), sent, receipts);
    }

    /** All nodes' late verdicts time out; at shutdown, when no time is left, all that are pending do. */
    method SweepAll(now: Option<real>)
      requires Valid()
      modifies this`acts, stats, protocols.Values
      ensures Valid() && old(acts) <= acts && forall i :: old(|acts|) <= i < |acts| ==> acts[i].Timeout?
      ensures now.None? ==> stats.receiptsConfirmed + stats.receiptTimeouts == |After(acts).entered|
      ensures now.None? ==> forall n :: n in protocols ==> protocols[n].pendingReceipts == map[]
    {
      hide Valid, After;
      var rest := protocols.Keys;
      while rest != {}
        invariant Valid() && rest <= protocols.Keys && old(acts) <= acts
        invariant forall i :: old(|acts|) <= i < |acts| ==> acts[i].Timeout?
        invariant now.None? ==> forall n :: n in protocols && n !in rest ==> protocols[n].pendingReceipts == map[]
      {
        var n := PickNode(rest);
        OneEach(n);
        SweepNode(n, now);
        rest := rest - {n};
      }
      if now.None? {
        NothingPending();
      }
    }

    lemma OneEach(n: NodeId)
      requires Valid() && n in protocols
      ensures forall m :: m in protocols && m != n ==> protocols[m] != protocols[n]
    {
      hide After, Run;
    }

    lemma NothingPending()
      requires Valid() && forall n :: n in protocols ==> protocols[n].pendingReceipts == map[]
      ensures stats.receiptsConfirmed + stats.receiptTimeouts == |After(acts).entered|
    {
      Accounting(links, ttl, corrupt, acts);
      hide After, Run;
      forall e ensures e !in After(acts).pending {
        if e.node in protocols {
          assert protocols[e.node].Tables(After(acts)) && (e.id, e.next) !in protocols[e.node].pendingReceipts;
        }
      }
      assert |After(acts).pending| == 0;
    }

    /** Posts a packet that no node sent, with a signature that was issued or is a corrupt node's own. */
    ghost method ForgePacket(n: NodeId, to: NodeId, p: Packet)
      requires Valid() && n in protocols && Known(corrupt, After(acts), p.signature)
      modifies this`acts
      ensures Valid() && acts == old(acts) + [InjectPacket(to, p)]
    {
      hide After, Mine, Posted, Run, Waiting;
      OthersWait(n);
      hide Valid, OthersSent, AllSent, Sends;
      ghost var sent, receipts := protocols[n].sent, protocols[n].receiptsSent;
      ghost var w := After(acts);
      acts := acts + [InjectPacket(to, p)];
      MineSame(n, protocols[n].deliveredIds, protocols[n].pendingReceipts, w, w.(frames := w.frames + {(p, to)}));
      StepValid(n, InjectPacket(to, p), old(acts), sent, receipts);
    }

    ghost method ForgeReceipt(n: NodeId, to: NodeId, r: Receipt)
      requires Valid() && n in protocols && Known(corrupt, After(acts), r.signature)
      modifies this`acts
      ensures Valid() && acts == old(acts) + [InjectReceipt(to, r)]
    {
      hide After, Mine, Posted, Run, Waiting;
      OthersWait(n);
      hide Valid, OthersSent, AllSent, Sends;
      ghost var sent, receipts := protocols[n].sent, protocols[n].receiptsSent;
      ghost var w := After(acts);
      acts := acts + [InjectReceipt(to, r)];
      MineSame(n, protocols[n].deliveredIds, protocols[n].pendingReceipts, w, w.(receipts := w.receipts + {(r, to)}));
      StepValid(n, InjectReceipt(to, r), old(acts), sent, receipts);
    }
  }
}
