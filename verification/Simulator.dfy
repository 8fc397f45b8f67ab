/** The event-driven simulator of aegis_router/event_sim.py: a heap-driven loop over mutable packets,
    link queues and counters. */
module Simulator {
  import opened Network
  import opened HopDistance
  import opened Packets
  import opened Sequences
  import opened Graph
  import opened SimState
  import opened Arrival
  import opened SimRuns
  import opened Links

  datatype EventStats = EventStats(generated: nat, delivered: nat, dropped: nat, inFlight: nat,
      dropReasons: map<Reason, nat>, retransmissions: nat)

  // ---- drop counts -----------------------------------------------------------------------

  function Tally(reasons: seq<Reason>, r: Reason): nat {
    if |reasons| == 0 then 0 else Tally(reasons[..|reasons| - 1], r) + if reasons[|reasons| - 1] == r then 1 else 0
  }

  lemma {:induction false} TallySum(reasons: seq<Reason>)
    ensures Tally(reasons, Loop) + Tally(reasons, NoRoute) + Tally(reasons, NodeDown) + Tally(reasons, TtlExpired)
         + Tally(reasons, LinkLoss) + Tally(reasons, SybilDrop) + Tally(reasons, BadSignature) == |reasons|
  {
    if |reasons| > 0 {
      TallySum(reasons[..|reasons| - 1]);
    }
  }

  /** Each reason is counted as often as it was given. */
  lemma {:induction false} TallyCounts(reasons: seq<Reason>, r: Reason)
    ensures Tally(reasons, r) == multiset(reasons)[r]
  {
    if |reasons| > 0 {
      TallyCounts(reasons[..|reasons| - 1], r);
      assert reasons == reasons[..|reasons| - 1] + [reasons[|reasons| - 1]];
    }
  }

  function Counted(counts: map<Reason, nat>, r: Reason): nat {
    if r in counts then counts[r] else 0
  }

  ghost predicate CountsOk(counts: map<Reason, nat>, reasons: seq<Reason>) {
    forall r :: Counted(counts, r) == Tally(reasons, r)
  }

  /** Every packet is in exactly one of three lists. */
  ghost predicate Parted(n: nat, a: seq<nat>, b: seq<nat>, c: seq<nat>) {
    && Distinct(a) && Distinct(b) && Distinct(c)
    && (forall id :: id in a ==> id !in b && id !in c) && (forall id :: id in b ==> id !in c)
    && forall id: nat :: id < n <==> id in a || id in b || id in c
  }

  function UpTo(n: nat): (ids: set<nat>)
    ensures |ids| == n && forall id: nat :: id in ids <==> id < n
  {
    if n == 0 then {} else UpTo(n - 1) + {n - 1}
  }

  /** Conservation of packets. */
  lemma PartedCount(n: nat, a: seq<nat>, b: seq<nat>, c: seq<nat>)
    requires Parted(n, a, b, c)
    ensures |a| + |b| + |c| == n
  {
    DistinctSize(a);
    DistinctSize(b);
    DistinctSize(c);
    assert Elements(a) !! Elements(b) && (Elements(a) + Elements(b)) !! Elements(c);
    assert Elements(a) + Elements(b) + Elements(c) == UpTo(n);
  }

  /** The packets that are neither delivered nor dropped. */
  method InFlight(n: nat, delivered: seq<nat>, dropped: seq<nat>) returns (inFlight: seq<nat>)
    requires Distinct(delivered) && Distinct(dropped) && (forall id :: id in delivered ==> id < n && id !in dropped)
    requires forall id :: id in dropped ==> id < n
    ensures Parted(n, delivered, dropped, inFlight)
  {
    inFlight := [];
    for id := 0 to n
      invariant Distinct(inFlight) && forall i: nat :: i in inFlight <==> i < id && i !in delivered && i !in dropped
    {
      if id !in delivered && id !in dropped {
        DistinctSnoc(inFlight, id);
        inFlight := inFlight + [id];
      }
    }
  }

  // ---- the heap ------------------------------------------------------------------------

  method LeastEvent(events: set<Event>) returns (e: Event)
    requires events != {}
    ensures e in events && forall f :: f in events ==> !Earlier(f, e)
  {
    e := PickNode(events);
    var rest := events - {e};
    while rest != {}
      invariant rest <= events && e in events
      invariant forall f :: f in events && f !in rest ==> !Earlier(f, e)
    {
      var f := PickNode(rest);
      if Earlier(f, e) {
        e := f;
      }
      rest := rest - {f};
    }
  }

  // ---- churn ---------------------------------------------------------------------------------

  lemma ChurnOne(c: Config, random: nat -> real, lo: nat, order: seq<NodeId>, off: set<NodeId>, before: set<NodeId>,
      off': set<NodeId>, node: NodeId)
    requires ChurnedInOrder(c, random, lo, order, off, before) && node !in order
    requires (forall n :: n != node ==> (n in off' <==> n in before))
    requires Decides(c, random, lo + |order|, node in off, node in off')
    ensures ChurnedInOrder(c, random, lo, order + [node], off, off')
  {
    hide Decides;
    DistinctSnoc(order, node);
    var order' := order + [node];
    forall k | 0 <= k < |order'| ensures Decides(c, random, lo + k, order'[k] in off, order'[k] in off') {
      if k < |order| {
        var n := order[k];
        assert n in order && order'[k] == n;
      }
    }
  }

  /** One node's turn. */
  method ChurnNode(c: Config, x: real, node: NodeId, off: set<NodeId>) returns (off': set<NodeId>)
    ensures node in off' <==> if node in off then x >= c.churnRecovery else x < c.churnRate
    ensures (node in off' <==> StaysDown(c, node in off, x)) && forall n :: n != node ==> (n in off' <==> n in off)
  {
    off' := off;
    if node in off {
      if x < c.churnRecovery {
        off' := off - {node};
      }
    } else if x < c.churnRate {
      off' := off + {node};
    }
  }

  method Churned(c: Config, random: nat -> real, cursor: nat, nodes: set<NodeId>, off: set<NodeId>)
    returns (off': set<NodeId>, cursor': nat)
    ensures ChurnOutcome(c, random, cursor, cursor', nodes, off, off')
  {
    hide ChurnedInOrder, StaysDown;
    off', cursor' := off, cursor;
    ghost var order: seq<NodeId> := [];
    var rest := nodes;
    NoneChurned(c, random, cursor, off);
    while rest != {}
      invariant rest <= nodes && Elements(order) == nodes - rest && cursor' == cursor + |order| && Distinct(order)
      invariant ChurnedInOrder(c, random, cursor, order, off, off')
    {
      var node := PickNode(rest);
      ghost var before := off';
      assert node !in Elements(order);
      StillSame(c, random, cursor, order, off, off', node);
      off' := ChurnNode(c, random(cursor'), node, off');
      ChurnOne(c, random, cursor, order, off, before, off', node);
      DistinctSnoc(order, node);
      assert Elements(order + [node]) == Elements(order) + {node};
      order := order + [node];
      cursor', rest := cursor' + 1, rest - {node};
    }
    DistinctSize(order);
  }

  lemma NoneChurned(c: Config, random: nat -> real, lo: nat, off: set<NodeId>)
    ensures ChurnedInOrder(c, random, lo, [], off, off)
  {
  }

  lemma StillSame(c: Config, random: nat -> real, lo: nat, order: seq<NodeId>, off: set<NodeId>, off': set<NodeId>,
      n: NodeId)
    requires ChurnedInOrder(c, random, lo, order, off, off') && n !in order
    ensures n in off' <==> n in off
  {
  }

  // ---- the tables of a forward -------------------------------------------------------------------

  /** What a forward does to the tables, and that nobody hears about it. */
  lemma Queued(c: Config, sybils: set<NodeId>, s: State, packet: Packet, nxt: NodeId, m: LinkMetrics, failed: nat,
      ahead: Outlook, start: real, p: Packet)
    requires s.current.Some? && s.current.value < |s.packets| == |s.trails|
    requires packet == Asked(s.packets[s.current.value])
    requires var link := (packet.node, nxt);
      start == Later(s.now, if link in s.available then Some(s.available[link]) else None)
    requires var q := Sent(sybils, packet, nxt, EffectiveLoss(c, sybils, m, nxt));
      p == q.(queueDelay := q.queueDelay + (start - s.now),
              latency := q.latency + (m.latency + (start - s.now) + Service(c, m)) + Charged(c, m, failed),
              node := nxt, hops := q.hops + 1, ttl := q.ttl - 1)
    ensures ForwardStep(c, sybils, s, nxt, m, failed, ahead) ==
      Forwarded(s, p, HopTrail(c, s.trails[s.current.value], nxt, m, failed, ahead), start + Service(c, m) + m.latency,
                Grant((packet.node, nxt), s.now, start, start + Service(c, m)))
  {
    hide Forwarded, Later, Service, Charged, EffectiveLoss, HopTrail;
  }

  lemma NothingLogged(s: State)
    ensures Logged([], s)
  {
  }

  lemma LoggedInOrder(log: seq<Event>, s: State)
    requires Logged(log, s)
    ensures s.timely ==> InOrder(log)
  {
  }

  class EventDrivenSimulator {
    const graph: P2PGraph
    const cfg: Config
    const oracle: Oracle
    var events: set<Event>
    var counter: nat
    var packets: seq<Packet>
    var available: map<(NodeId, NodeId), real>
    var delivered: seq<nat>
    var dropped: seq<nat>
    var dropReasons: map<Reason, nat>
    var retransmissions: nat
    var observed: seq<Observation>
    var draws: nat
    var decisions: nat
    var gapsUsed: nat
    var ticks: nat
    var drifts: nat
    var inFlight: seq<nat>
    ghost const links: Adjacency
    ghost var s: State

    /** The tables agree with the history of the run. */
    ghost predicate Booked()
      reads this`s, this`packets, this`available, this`counter, this`events, this`delivered, this`dropped
      reads this`dropReasons
    {
      s.packets == packets && s.available == available && Settled()
    }

    ghost predicate Settled()
      reads this`s, this`counter, this`events, this`delivered, this`dropped, this`dropReasons
    {
      && s.counter == counter && s.events == events && s.delivered == delivered && s.dropped == dropped
      && CountsOk(dropReasons, s.reasons)
    }

    ghost predicate Valid()
      reads this`s, this`packets, this`available, this`counter, this`events, this`delivered, this`dropped
      reads this`dropReasons, graph
    {
      && Booked() && s.current == None
      && graph.Valid() && Env(cfg, links, graph.adj, s.timely) && Undirected(links)
      && Inv(cfg, links, graph.sybilNodes, s)
    }

    /** Everything the simulator holds, but for the lists that only repeat the history. */
    ghost function At(): Mark
      reads this`s, this`observed, this`retransmissions, this`draws, this`decisions, this`gapsUsed, this`ticks
      reads this`drifts, graph`adj, graph`offlineNodes
    {
      Mark(s, graph.adj, graph.offlineNodes, observed, retransmissions, draws, decisions, gapsUsed, ticks, drifts)
    }

    /** Without churn every packet has walked down the distance to its destination. */
    ghost predicate RoutedSoFar()
      reads this`s, graph`offlineNodes
    {
      cfg.churnRate <= 0.0 && graph.offlineNodes == {} && Routed(links, s)
    }

    /** No packet was led back to a visited node without need, and the solver heard of no chosen hop that was down. */
    ghost predicate WarySoFar()
      reads this`s, this`observed
    {
      Wary(s) && NobodyBlamed(observed)
    }

    /** No packet was lost on a link, and no draw fails one. */
    ghost predicate LosslessSoFar()
      reads this`s, graph`adj, graph`sybilNodes
    {
      NothingLost(s) && Unfailing(oracle, cfg, graph.sybilNodes, graph.adj)
    }

    /** The run about to begin. */
    ghost function Course(duration: real, trafficRate: real, drainTime: real, n: nat): Setting
      reads this`s, this`observed, this`gapsUsed, graph`adj, graph`offlineNodes, graph`sybilNodes
    {
      Setting(oracle, cfg, links, graph.sybilNodes, duration, duration + if drainTime > 0.0 then drainTime else 0.0,
        trafficRate, gapsUsed, n,
        ShortestSolver(oracle) && Connected(links) && Undirected(links) && RoutedSoFar(),
        CarefulSolver(oracle) && WarySoFar(), LosslessSoFar())
    }

    ghost predicate Within(w: Setting)
      reads graph`sybilNodes
    {
      w.oracle == oracle && w.cfg == cfg && w.links == links && w.sybils == graph.sybilNodes && SettingOk(w)
    }

    constructor (graph: P2PGraph, cfg: Config, oracle: Oracle)
      requires graph.Valid()
      ensures Valid() && this.graph == graph && this.cfg == cfg && this.oracle == oracle && links == graph.adj
      ensures At() == Mark(NewState(LatenciesNonNegative(graph.adj) && cfg.serviceTime >= 0.0), graph.adj,
                           graph.offlineNodes, [], 0, 0, 0, 0, 0, 0)
      ensures inFlight == [] && Resting(cfg, s) && Routed(links, s) && WarySoFar() && NothingLost(s)
    {
      this.graph, this.cfg, this.oracle, links := graph, cfg, oracle, graph.adj;
      events, counter, packets, available := {}, 0, [], map[];
      delivered, dropped, dropReasons, retransmissions, observed := [], [], map[], 0, [];
      draws, decisions, gapsUsed, ticks, drifts, inFlight := 0, 0, 0, 0, 0, [];
      s := NewState(LatenciesNonNegative(graph.adj) && cfg.serviceTime >= 0.0);
    }

    method Schedule(time: real, kind: Kind)
      modifies this`events, this`counter
      ensures events == old(events) + {Event(time, old(counter), kind)} && counter == old(counter) + 1
    {
      events := events + {Event(time, counter, kind)};
      counter := counter + 1;
    }

    method NotifySolver(p: Packet, delivered: bool, dropped: bool, reason: Option<Reason>)
      modifies this`observed
      ensures observed == old(observed) + Note(p, delivered, dropped, reason)
    {
      if p.lastNeighbor.Some? {
        var observable := if reason == Some(SybilDrop) then Some(LinkLoss) else reason;
        observed := observed + [Observation(p.lastNeighbor.value, delivered, dropped, observable, p.lastFrom, false)];
      }
    }

    method CountDrop(id: nat, reason: Reason)
      modifies this`dropReasons, this`dropped
      ensures dropped == old(dropped) + [id]
      ensures forall reasons :: old(CountsOk(dropReasons, reasons)) ==> CountsOk(dropReasons, reasons + [reason])
    {
      dropReasons := dropReasons[reason := Counted(dropReasons, reason) + 1];
      dropped := dropped + [id];
      forall reasons | old(CountsOk(dropReasons, reasons)) ensures CountsOk(dropReasons, reasons + [reason]) {
        assert (reasons + [reason])[..|reasons|] == reasons;
      }
    }

    /** Drops the current packet, whose fields may have changed since it arrived. */
    method Drop(p: Packet, reason: Reason, notify: bool, ghost ahead: Outlook)
      requires p.id < |s.packets| == |s.trails| && s.current == Some(p.id) && packets == s.packets[p.id := p]
      requires Settled() && s.available == available
      modifies this`observed, this`dropReasons, this`dropped, this`s
      ensures Booked() && s == Dropped(old(s), p, reason, ahead)
      ensures observed == old(observed) + if notify then Note(p, false, true, Some(reason)) else []
    {
      hide CountsOk;
      if notify {
        NotifySolver(p, false, true, Some(reason));
      }
      CountDrop(p.id, reason);
      s := Dropped(s, p, reason, ahead);
    }

    /** The draws from `cursor` on fail the link exactly `failed` times; every transmission takes one, and all but
        the first are retransmissions. */
    ghost predicate LinkTried(node: NodeId, nxt: NodeId, failed: nat, cursor: nat, resent: nat)
      requires nxt in Neighbors(graph.adj, node)
      reads this`draws, this`retransmissions, graph`adj, graph`sybilNodes
    {
      && TriedLink(oracle, cfg, graph.sybilNodes, graph.adj, node, nxt, cursor, failed)
      && draws == cursor + Spent(cfg, failed) && retransmissions == resent + Resent(Spent(cfg, failed))
    }

    lemma LinkResent(node: NodeId, nxt: NodeId, failed: nat, cursor: nat, resent: nat)
      requires nxt in Neighbors(graph.adj, node) && LinkTried(node, nxt, failed, cursor, resent)
      ensures retransmissions == resent + if failed <= cfg.retries then failed else cfg.retries
    {
    }

    /** An arrival does exactly what ArriveStep says, for the solver's next answer and the draws that
        follow, and reports the verdict it comes to. */
    method HandleArrive(time: real, id: nat) returns (ghost next: Option<NodeId>, ghost failed: nat)
      requires Booked() && s.current == Some(id) && id < |s.packets| == |s.trails| && packets[id].id == id
      requires time == s.now
      modifies this`events, this`counter, this`packets, this`available, this`delivered, this`dropped, this`dropReasons
      modifies this`retransmissions, this`observed, this`draws, this`decisions, this`s
      ensures Booked()
      ensures next == oracle.decide(old(decisions), graph.adj, graph.offlineNodes, Asked(old(packets[id])))
      ensures s == ArriveStep(cfg, graph.adj, graph.offlineNodes, graph.sybilNodes, old(s), next, failed)
      ensures |s.packets| == old(|s.packets|) && observed == old(observed) + Reported(graph.offlineNodes, old(s), s)
      ensures old(packets[id].node == packets[id].dst) ==> delivered == old(delivered) + [id] && dropped == old(dropped)
      ensures old(packets[id].node != packets[id].dst) ==> delivered == old(delivered)
      ensures forall reason ::
        (DropsFor(cfg, graph.adj, graph.offlineNodes, graph.sybilNodes, old(packets[id]), next, failed, reason) ==>
           dropped == old(dropped) + [id] && s.reasons == old(s.reasons) + [reason])
      ensures Transmits(graph.adj, graph.offlineNodes, old(packets[id]), next) && failed <= cfg.retries ==>
        var p, m := old(packets[id]), graph.adj[old(packets[id].node)][next.value];
        exists start, x: Costs ::
          Priced(cfg, m, graph.sybilNodes, p, next.value, failed, x) &&
          GoesOn(m, graph.sybilNodes, old(s), id, next.value, start, x, s)
      ensures Heard(cfg, graph.adj, graph.offlineNodes, graph.sybilNodes, old(packets[id]), next, failed,
        observed[|old(observed)|..])
      ensures decisions == old(decisions) + if Asks(graph.offlineNodes, old(packets[id])) then 1 else 0
      ensures if Transmits(graph.adj, graph.offlineNodes, old(packets[id]), next)
              then LinkTried(old(packets[id].node), next.value, failed, old(draws), old(retransmissions))
              else draws == old(draws) && retransmissions == old(retransmissions)
      ensures retransmissions == old(retransmissions)
        + if !Transmits(graph.adj, graph.offlineNodes, old(packets[id]), next) then 0
          else if failed <= cfg.retries then failed else cfg.retries
    {
      hide CountsOk, LinkTried, DecisionStep, Reported, Note, Dropped, Asked, ArriveStep, DropsFor, Heard, GoesOn,
           Priced;
      ghost var before := s;
      next, failed := Process(time, id);
      ArriveVerdict(cfg, graph.adj, graph.offlineNodes, graph.sybilNodes, before, next, failed);
      ArriveHeard(cfg, graph.adj, graph.offlineNodes, graph.sybilNodes, before, next, failed);
      if Transmits(graph.adj, graph.offlineNodes, old(packets[id]), next) {
        LinkResent(old(packets[id].node), next.value, failed, old(draws), old(retransmissions));
      }
    }

    /** The stages of an arrival, the first that applies. */
    method Process(time: real, id: nat) returns (ghost next: Option<NodeId>, ghost failed: nat)
      requires Booked() && s.current == Some(id) && id < |s.packets| == |s.trails| && packets[id].id == id
      requires time == s.now
      modifies this`events, this`counter, this`packets, this`available, this`delivered, this`dropped, this`dropReasons
      modifies this`retransmissions, this`observed, this`draws, this`decisions, this`s
      ensures Booked()
      ensures next == oracle.decide(old(decisions), graph.adj, graph.offlineNodes, Asked(old(packets[id])))
      ensures s == ArriveStep(cfg, graph.adj, graph.offlineNodes, graph.sybilNodes, old(s), next, failed)
      ensures |s.packets| == old(|s.packets|) && observed == old(observed) + Reported(graph.offlineNodes, old(s), s)
      ensures decisions == old(decisions) + if Asks(graph.offlineNodes, old(packets[id])) then 1 else 0
      ensures if Transmits(graph.adj, graph.offlineNodes, old(packets[id]), next)
              then LinkTried(old(packets[id].node), next.value, failed, old(draws), old(retransmissions))
              else draws == old(draws) && retransmissions == old(retransmissions)
    {
      hide CountsOk, LinkTried, DecisionStep, Reported, Note, Dropped, Asked;
      var p := packets[id];
      ghost var off, ahead := graph.offlineNodes, s.trails[id].ahead;
      next, failed := oracle.decide(decisions, graph.adj, off, Asked(p)), 0;
      if p.node == p.dst {
        ReportDelivery(off, s);
        NotifySolver(p, true, false, None);
        delivered := delivered + [id];
        s := Delivered(s);
        return;
      }
      assert packets == packets[id := p];
      if p.node in graph.offlineNodes {
        ReportDrop(off, s, p, NodeDown, ahead);
        Drop(p, NodeDown, false, ahead);
        return;
      }
      if p.ttl <= 0 {
        ReportDrop(off, s, p, TtlExpired, ahead);
        Drop(p, TtlExpired, true, ahead);
        return;
      }
      if p.node in p.visited {
        ReportDrop(off, s, p, Loop, ahead);
        Drop(p, Loop, true, ahead);
        return;
      }
      failed := Decide(time, p);
    }

    /** Marks the node as visited and asks the solver. */
    method Ask(packet: Packet) returns (p: Packet, next: Option<NodeId>)
      requires packet.id < |packets|
      modifies this`packets, this`decisions
      ensures p == Asked(packet) && p.id == packet.id && p.node == packet.node
      ensures packets == old(packets)[packet.id := p]
      ensures next == oracle.decide(old(decisions), graph.adj, graph.offlineNodes, p) && decisions == old(decisions) + 1
    {
      p := packet.(visited := packet.visited + {packet.node});
      packets := packets[packet.id := p];
      next := oracle.decide(decisions, graph.adj, graph.offlineNodes, p);
      decisions := decisions + 1;
    }

    /** Asks the solver for a next hop and tries it. */
    method Decide(time: real, packet: Packet) returns (ghost failed: nat)
      requires Booked() && s.current == Some(packet.id) && packet.id < |s.packets| == |s.trails|
      requires packets[packet.id] == packet
      requires time == s.now && packet.node !in graph.offlineNodes
      modifies this`events, this`counter, this`packets, this`available, this`dropped, this`dropReasons
      modifies this`retransmissions, this`observed, this`draws, this`decisions, this`s
      ensures Booked()
      ensures var next := oracle.decide(old(decisions), graph.adj, graph.offlineNodes, Asked(packet));
        && s == DecisionStep(cfg, graph.adj, graph.offlineNodes, graph.sybilNodes, old(s), next, failed)
        && decisions == old(decisions) + 1
        && if next.Some? && next.value in Neighbors(graph.adj, packet.node) && next.value !in graph.offlineNodes
           then LinkTried(packet.node, next.value, failed, old(draws), old(retransmissions))
           else draws == old(draws) && retransmissions == old(retransmissions)
      ensures |s.packets| == old(|s.packets|) && observed == old(observed) + Reported(graph.offlineNodes, old(s), s)
    {
      hide Settled, LinkTried, ForwardStep, DecisionStep, Dropped, Reported, Note, Ahead, Asked;
      var id, node := packet.id, packet.node;
      var p, next := Ask(packet);
      failed := 0;
      ghost var ahead := Ahead(graph.adj, graph.offlineNodes, p);
      UnroutedStep(cfg, graph.adj, graph.offlineNodes, graph.sybilNodes, s, p, next, failed);
      if next.None? || node !in graph.adj || next.value !in graph.adj[node] {
        ReportDrop(graph.offlineNodes, s, p, NoRoute, ahead);
        Drop(p, NoRoute, true, ahead);
        return;
      }
      var nxt := next.value;
      if nxt in graph.offlineNodes {
        p := p.(lastFrom := Some(node), lastNeighbor := next);
        packets := packets[id := p];
        ReportDrop(graph.offlineNodes, s, p, NodeDown, ahead);
        Drop(p, NodeDown, true, ahead);
        return;
      }
      failed := HandleLink(time, p, nxt);
    }

    /** Transmits until a draw reaches the loss probability or the retries are used up. */
    method TryLink(node: NodeId, nxt: NodeId, loss: real) returns (tries: nat, lost: bool)
      requires nxt in Neighbors(graph.adj, node)
      requires loss == EffectiveLoss(cfg, graph.sybilNodes, graph.adj[node][nxt], nxt)
      modifies this`draws, this`retransmissions
      ensures LinkTried(node, nxt, tries, old(draws), old(retransmissions)) && (lost <==> tries > cfg.retries)
      ensures retransmissions == old(retransmissions) + if lost then cfg.retries else tries
    {
      var cursor;
      tries, lost, cursor := Transmit(oracle.random, draws, loss, cfg.retries + 1);
      var transmissions := tries + if lost then 0 else 1;
      retransmissions := retransmissions + if transmissions > 1 then transmissions - 1 else 0;
      draws := cursor;
    }

    /** The link stage of an arrival: ARQ, then loss or a place in the link queue. */
    method HandleLink(time: real, packet: Packet, nxt: NodeId) returns (ghost failed: nat)
      requires s.current == Some(packet.id) && packet.id < |s.packets| == |s.trails|
      requires packet == Asked(s.packets[packet.id])
      requires packets == s.packets[packet.id := packet] && Settled() && s.available == available
      requires nxt in Neighbors(graph.adj, packet.node) && nxt !in graph.offlineNodes
      requires packet.node !in graph.offlineNodes
      requires time == s.now
      modifies this`events, this`counter, this`packets, this`available, this`dropped, this`dropReasons
      modifies this`retransmissions, this`observed, this`draws, this`s
      ensures Booked()
      ensures s == DecisionStep(cfg, graph.adj, graph.offlineNodes, graph.sybilNodes, old(s), Some(nxt), failed)
      ensures |s.packets| == old(|s.packets|) && observed == old(observed) + Reported(graph.offlineNodes, old(s), s)
      ensures LinkTried(packet.node, nxt, failed, old(draws), old(retransmissions))
    {
      hide CountsOk, LinkTried, Dropped, Note, EffectiveLoss, DecisionStep, ForwardStep, Sent, Asked, Reported, Ahead;
      var metrics := graph.adj[packet.node][nxt];
      ghost var ahead := Ahead(graph.adj, graph.offlineNodes, packet);
      var loss := EffectiveLoss(cfg, graph.sybilNodes, metrics, nxt);
      var tries, lost := TryLink(packet.node, nxt, loss);
      failed := tries;
      LinkStep(cfg, graph.adj, graph.offlineNodes, graph.sybilNodes, s, packet, nxt, failed);
      if lost {
        var p := Sent(graph.sybilNodes, packet, nxt, loss);
        packets := packets[p.id := p];
        var reason := if nxt in graph.sybilNodes then SybilDrop else LinkLoss;
        ReportDrop(graph.offlineNodes, s, p, reason, ahead);
        Drop(p, reason, true, ahead);
        return;
      }
      ForwardQuiet(graph.offlineNodes, cfg, graph.sybilNodes, s, nxt, metrics, tries, ahead);
      Enqueue(time, packet, nxt, metrics, tries, ahead);
    }

    /** Takes the next free slot of a directed link. */
    method Reserve(key: (NodeId, NodeId), time: real, service: real) returns (start: real)
      modifies this`available
      ensures start == Later(time, if key in old(available) then Some(old(available[key])) else None)
      ensures available == old(available)[key := start + service]
    {
      var free := if key in available then available[key] else time;
      start := if free > time then free else time;
      available := available[key := start + service];
    }

    /** Queues the packet on the link and schedules its arrival at the far end. */
    method Enqueue(time: real, packet: Packet, nxt: NodeId, metrics: LinkMetrics, tries: nat, ghost ahead: Outlook)
      requires s.current == Some(packet.id) && packet.id < |s.packets| == |s.trails|
      requires packet == Asked(s.packets[packet.id])
      requires packets == s.packets[packet.id := packet] && Settled() && s.available == available && time == s.now
      modifies this`events, this`counter, this`packets, this`available, this`s
      ensures Booked() && s == ForwardStep(cfg, graph.sybilNodes, old(s), nxt, metrics, tries, ahead)
    {
      hide CountsOk, Service, Charged, EffectiveLoss, Later, Asked, HopTrail, Sent, ForwardStep;
      var service := Service(cfg, metrics);
      var start := Reserve((packet.node, nxt), time, service);
      var p := Sent(graph.sybilNodes, packet, nxt, EffectiveLoss(cfg, graph.sybilNodes, metrics, nxt));
      p := p.(queueDelay := p.queueDelay + (start - time),
              latency := p.latency + (metrics.latency + (start - time) + service) + Charged(cfg, metrics, tries),
              node := nxt, hops := p.hops + 1, ttl := p.ttl - 1);
      Queued(cfg, graph.sybilNodes, s, packet, nxt, metrics, tries, ahead, start, p);
      packets := packets[packet.id := p];
      Schedule(start + service + metrics.latency, Arrive(packet.id));
      s := ForwardStep(cfg, graph.sybilNodes, s, nxt, metrics, tries, ahead);
    }

    /** Puts an entry that is not an arrival on the heap. */
    method ScheduleOther(time: real, kind: Kind)
      requires Valid() && !kind.Arrive? && (kind.Generate? ==> !HasKind(s.events, kind)) && (s.timely ==> time >= s.now)
      modifies this`events, this`counter, this`s
      ensures Valid() && s == Scheduled(old(s), time, kind)
      ensures events == old(events) + {Event(time, old(counter), kind)} && counter == old(counter) + 1
    {
      hide Inv, CountsOk, Env, Undirected, P2PGraph.Valid;
      ScheduledKeeps(cfg, links, graph.sybilNodes, s, time, kind);
      Schedule(time, kind);
      s := Scheduled(s, time, kind);
    }

    /** A new packet arrives at its own source at once. */
    method Spawn(time: real)
      requires Valid() && time == s.now && DrawsOk(oracle, links)
      modifies this`events, this`counter, this`packets, this`s
      ensures Valid()
      ensures var (src, dst) := oracle.pairs(|old(packets)|);
        s == Spawned(old(s), Created(cfg, graph.sybilNodes, old(s), src, dst))
      ensures var id, (src, dst) := |old(packets)|, oracle.pairs(|old(packets)|);
        packets == old(packets) + [Packet(id, src, dst, time, cfg.ttl, src, {}, [], 0, 0.0, 0.0, 0.0,
                                          src in graph.sybilNodes, false, None, None, None)]
      ensures events == old(events) + {Event(time, old(counter), Arrive(|old(packets)|))} && counter == old(counter) + 1
    {
      hide Inv, CountsOk, Env, DrawsOk, Undirected, P2PGraph.Valid;
      var (src, dst) := oracle.pairs(|packets|);
      var p := NewPacket(|packets|, src, dst, time, cfg.ttl).(touchedSybil := src in graph.sybilNodes);
      DrawsAt(oracle, links, |packets|, 0);
      SpawnedKeeps(cfg, links, graph.sybilNodes, s, p);
      packets := packets + [p];
      Schedule(time, Arrive(p.id));
      s := Spawned(s, p);
    }

    method HandleGenerate(time: real, duration: real, trafficRate: real)
      requires Valid() && time == s.now && DrawsOk(oracle, links) && !HasKind(s.events, Generate)
      modifies this`events, this`counter, this`packets, this`gapsUsed, this`s
      ensures Valid()
      ensures gapsUsed == old(gapsUsed) + if trafficRate > 0.0 then 1 else 0
      ensures var gap := oracle.gaps(old(gapsUsed));
        s == GenerateStep(cfg, graph.sybilNodes, old(s), oracle.pairs(|old(packets)|).0, oracle.pairs(|old(packets)|).1,
                          if trafficRate > 0.0 && time + gap <= duration then Some(time + gap) else None)
      ensures var id, (src, dst) := |old(packets)|, oracle.pairs(|old(packets)|);
        packets == old(packets) + [Packet(id, src, dst, time, cfg.ttl, src, {}, [], 0, 0.0, 0.0, 0.0,
                                          src in graph.sybilNodes, false, None, None, None)]
      ensures var at := time + oracle.gaps(old(gapsUsed));
        events == old(events) + {Event(time, old(counter), Arrive(|old(packets)|))}
                  + if trafficRate > 0.0 && at <= duration then {Event(at, old(counter) + 1, Generate)} else {}
    {
      hide Valid, DrawsOk;
      DrawsAt(oracle, links, |packets|, gapsUsed);
      Spawn(time);
      if trafficRate > 0.0 {
        var delay := oracle.gaps(gapsUsed);
        gapsUsed := gapsUsed + 1;
        if time + delay <= duration {
          ScheduleOther(time + delay, Generate);
        }
      }
    }

    /** Congestion: the link's metrics drift, its ends stay. */
    method DriftEdge(a: NodeId, b: NodeId)
      requires graph.Valid() && Env(cfg, links, graph.adj, s.timely) && b in Neighbors(links, a)
      modifies graph`adj, graph`sybilNodes, this`drifts
      ensures graph.Valid() && Env(cfg, links, graph.adj, s.timely) && graph.sybilNodes == old(graph.sybilNodes)
      ensures graph.adj == WithEdge(old(graph.adj), a, b, Drifted(old(graph.adj[a][b]), oracle.drift(old(drifts))))
      ensures drifts == old(drifts) + 1
    {
      SameNeighbors(graph.adj, links, a);
      var m := Drifted(graph.adj[a][b], oracle.drift(drifts));
      drifts := drifts + 1;
      DriftKeeps(cfg, links, graph.adj, s.timely, a, b, m);
      graph.AddEdge(a, b, m);
    }

    method Churn()
      modifies graph`offlineNodes, this`draws
      ensures ChurnOutcome(cfg, oracle.random, old(draws), draws, graph.adj.Keys, old(graph.offlineNodes),
        graph.offlineNodes)
    {
      graph.offlineNodes, draws := Churned(cfg, oracle.random, draws, graph.adj.Keys, graph.offlineNodes);
    }

    /** Congestion of the sampled links. */
    method Congest()
      requires graph.Valid() && Env(cfg, links, graph.adj, s.timely) && DrawsOk(oracle, links)
      modifies this`drifts, this`ticks, graph`adj, graph`sybilNodes
      ensures graph.Valid() && Env(cfg, links, graph.adj, s.timely) && graph.sybilNodes == old(graph.sybilNodes)
      ensures graph.adj == DriftAll(old(graph.adj), oracle.links(old(ticks)), oracle.drift, old(drifts))
      ensures ticks == old(ticks) + 1 && drifts == old(drifts) + |oracle.links(old(ticks))|
    {
      hide WithEdge, Drifted, Env, P2PGraph.Valid, DriftAll;
      var sample := oracle.links(ticks);
      ticks := ticks + 1;
      NoDrift(graph.adj, oracle.drift, drifts);
      assert sample[..0] == [];
      for k := 0 to |sample|
        invariant graph.Valid() && Env(cfg, links, graph.adj, s.timely) && graph.sybilNodes == old(graph.sybilNodes)
        invariant graph.adj == DriftAll(old(graph.adj), sample[..k], oracle.drift, old(drifts))
        invariant drifts == old(drifts) + k
        invariant ticks == old(ticks) + 1
      {
        EnvNeighbors(cfg, links, graph.adj, s.timely, sample[k].0);
        DriftNext(old(graph.adj), sample, oracle.drift, old(drifts), k);
        DriftEdge(sample[k].0, sample[k].1);
      }
      assert sample[..|sample|] == sample;
    }

    /** The network changes: the sampled links drift, and nodes go down or recover. */
    method Disturb()
      requires Valid() && DrawsOk(oracle, links)
      modifies this`draws, this`drifts, this`ticks, graph`adj, graph`sybilNodes, graph`offlineNodes
      ensures Valid() && graph.sybilNodes == old(graph.sybilNodes) && Congested(oracle, cfg, old(At()), At())
      ensures if cfg.churnRate > 0.0
              then ChurnOutcome(cfg, oracle.random, old(draws), draws, graph.adj.Keys, old(graph.offlineNodes),
                                graph.offlineNodes)
              else graph.offlineNodes == old(graph.offlineNodes) && draws == old(draws)
    {
      hide Inv, CountsOk, Env, Undirected, DrawsOk, ChurnOutcome, DriftAll;
      if cfg.congestionRate > 0.0 {
        Congest();
      }
      if cfg.churnRate > 0.0 {
        Churn();
      }
    }

    /** One tick: the sampled links drift, nodes go down or recover, and the next tick is due. */
    method HandlePerturb(time: real, end: real)
      requires Valid() && time == s.now && DrawsOk(oracle, links) && cfg.perturbInterval > 0.0
      modifies this`events, this`counter, this`draws, this`drifts, this`ticks, this`s, graph`adj, graph`sybilNodes
      modifies graph`offlineNodes
      ensures Valid() && graph.sybilNodes == old(graph.sybilNodes) && Congested(oracle, cfg, old(At()), At())
      ensures if cfg.churnRate > 0.0
              then ChurnOutcome(cfg, oracle.random, old(draws), draws, graph.adj.Keys, old(graph.offlineNodes),
                                graph.offlineNodes)
              else graph.offlineNodes == old(graph.offlineNodes) && draws == old(draws)
      ensures s == NextTick(cfg, end, old(s), time)
      ensures var at := time + cfg.perturbInterval;
        events == old(events) + if at <= end then {Event(at, old(counter), Perturb)} else {}
    {
      hide Valid, DrawsOk, ChurnOutcome, DriftAll, NextTick;
      Disturb();
      PerturbAgain(time, end);
    }

    method PerturbAgain(time: real, end: real)
      requires Valid() && time == s.now && cfg.perturbInterval > 0.0
      modifies this`events, this`counter, this`s
      ensures Valid() && s == NextTick(cfg, end, old(s), time)
      ensures var at := time + cfg.perturbInterval;
        events == old(events) + if at <= end then {Event(at, old(counter), Perturb)} else {}
    {
      hide Valid;
      var at := time + cfg.perturbInterval;
      if at <= end {
        ScheduleOther(at, Perturb);
      }
    }

    lemma ValidFacts()
      requires Valid()
      ensures s.events == events && s.packets == packets && s.delivered == delivered && s.dropped == dropped
      ensures s.current == None
      ensures Conserved(s) && HeapMatches(s) && CountsOk(dropReasons, s.reasons) && Inv(cfg, links, graph.sybilNodes, s)
      ensures |s.reasons| == |s.dropped|
    {
      hide CountsOk, Env, HeapOk, QueuesOk;
    }

    /** Takes the next event off the heap; an arrival makes its packet the current one. */
    method Pop(e: Event, ghost w: Setting) returns (ghost k: Mark)
      requires Valid() && Within(w) && RunOk(w, At()) && IsLeast(events, e)
      modifies this`events, this`s
      ensures k == old(At()) && At() == k.(s := Popped(k.s, e)) && IsLeast(k.s.events, e) && Within(w)
      ensures Booked() && graph.Valid() && Env(cfg, links, graph.adj, k.s.timely) && k.s.timely == s.timely
      ensures e.kind.Arrive? ==>
        && s.current == Some(e.kind.id) && e.kind.id < |s.packets| == |s.trails| && packets[e.kind.id].id == e.kind.id
        && s.packets == k.s.packets && |k.s.trails| == |s.packets| && s.now == e.time
      ensures !e.kind.Arrive? ==> Valid()
      ensures e.kind == Generate ==> !HasKind(s.events, e.kind)
      ensures e.kind == Perturb ==> cfg.perturbInterval > 0.0
    {
      hide Inv, RunOk, Steered, Agenda, Env, CountsOk, Undirected, SettingOk, HasKind, Earlier;
      k := At();
      PopFacts(w, k, e);
      PopKeeps(w, k, e);
      events := events - {e};
      s := Popped(s, e);
    }

    /** Handles the arrival that was just popped. */
    method HandlePopped(e: Event, ghost w: Setting, ghost k: Mark)
      requires Booked() && graph.Valid() && Env(cfg, links, graph.adj, k.s.timely) && Within(w) && RunOk(w, k)
      requires e.kind.Arrive? && IsLeast(k.s.events, e) && e.time <= w.end
      requires At() == k.(s := Popped(k.s, e)) && s.current == Some(e.kind.id) && s.packets == k.s.packets
      requires |k.s.trails| == |s.packets| && s.now == e.time
      requires e.kind.id < |s.packets| == |s.trails| && packets[e.kind.id].id == e.kind.id
      modifies this`events, this`counter, this`packets, this`available, this`delivered, this`dropped, this`dropReasons
      modifies this`retransmissions, this`observed, this`draws, this`decisions, this`s
      ensures Booked() && RunOk(w, At()) && Closer(w, k, At()) && Grown(Popped(k.s, e), s) && Stepped(w, k, e, At())
    {
      hide RunOk, Closer, Grown, Env, ArriveStep, Reported, Settled, SettingOk, IsLeast, Undirected, Asks, Transmits,
           TriedLink, Spent, Popped;
      ghost var next, failed := HandleArrive(e.time, e.kind.id);
      assert ArriveMark(w, k, e, next, failed, At());
      ArriveRuns(w, k, e, next, failed, At());
    }

    /** Handles the generation that was just popped. */
    method HandleGeneration(e: Event, duration: real, trafficRate: real, ghost w: Setting, ghost k: Mark)
      requires Valid() && Within(w) && w.duration == duration && w.rate == trafficRate && RunOk(w, k)
      requires e.kind == Generate && IsLeast(k.s.events, e) && e.time <= w.end
      requires At() == k.(s := Popped(k.s, e)) && !HasKind(s.events, Generate)
      modifies this`events, this`counter, this`packets, this`gapsUsed, this`s
      ensures Valid() && RunOk(w, At()) && Closer(w, k, At()) && Grown(Popped(k.s, e), s) && Stepped(w, k, e, At())
    {
      hide Valid, RunOk, Closer, Grown, HasKind, IsLeast, GenerateStep, DrawsOk, ShortestSolver, CarefulSolver,
           Connected, Undirected, Elapsed;
      PacketsAre();
      if e.time <= duration {
        HandleGenerate(e.time, duration, trafficRate);
      }
      GenerateRuns(w, k, e, At());
    }

    lemma PacketsAre()
      requires Valid()
      ensures s.packets == packets
    {
    }

    /** Handles the perturbation that was just popped. */
    method HandleTick(e: Event, end: real, ghost w: Setting, ghost k: Mark)
      requires Valid() && Within(w) && w.end == end && RunOk(w, k) && e.time <= end && cfg.perturbInterval > 0.0
      requires e.kind == Perturb && IsLeast(k.s.events, e) && At() == k.(s := Popped(k.s, e))
      modifies this`events, this`counter, this`draws, this`drifts, this`ticks, this`s, graph`adj, graph`sybilNodes
      modifies graph`offlineNodes
      ensures Valid() && graph.sybilNodes == old(graph.sybilNodes)
      ensures RunOk(w, At()) && Closer(w, k, At()) && Grown(Popped(k.s, e), s) && Stepped(w, k, e, At())
    {
      hide Valid, RunOk, Closer, Grown, IsLeast, DrawsOk, ShortestSolver, CarefulSolver, Connected, Undirected, Elapsed,
           ChurnOutcome, DriftAll;
      HandlePerturb(e.time, end);
      EnvNow(k.s.timely);
      assert PerturbMark(w, k, e, At());
      PerturbRuns(w, k, e, At());
    }

    lemma EnvNow(timely: bool)
      requires Valid() && s.timely == timely
      ensures Env(cfg, links, graph.adj, timely) && Undirected(graph.adj)
    {
    }

    /** Handles one event, on time. */
    method Handle(e: Event, duration: real, trafficRate: real, end: real, ghost w: Setting)
      requires Valid() && Within(w) && w.duration == duration && w.rate == trafficRate && w.end == end
      requires RunOk(w, At()) && e.time <= end && IsLeast(events, e)
      modifies this, graph`adj, graph`sybilNodes, graph`offlineNodes
      ensures Valid() && graph.sybilNodes == old(graph.sybilNodes) && RunOk(w, At()) && inFlight == old(inFlight)
      ensures Stepped(w, old(At()), e, At()) && Closer(w, old(At()), At()) && Grown(Popped(old(s), e), s)
    {
      hide Valid, Booked, RunOk, Closer, Grown, Env, HasKind, IsLeast, SettingOk, Popped, Stepped;
      LinksUndirected();
      ghost var k := Pop(e, w);
      match e.kind
      case Generate =>
        HandleGeneration(e, duration, trafficRate, w, k);
      case Arrive(id) =>
        HandlePopped(e, w, k);
        AgainValid(w, k, e);
      case Perturb =>
        HandleTick(e, end, w, k);
    }

    lemma LinksUndirected()
      requires Valid()
      ensures Undirected(links)
    {
    }

    lemma AgainValid(w: Setting, k: Mark, e: Event)
      requires Booked() && graph.Valid() && Undirected(links) && Env(cfg, links, graph.adj, k.s.timely)
      requires Within(w) && RunOk(w, At()) && Grown(Popped(k.s, e), s)
      ensures Valid()
    {
      hide Inv, Env, Settled, Undirected, SettingOk;
    }

    lemma StartOk(w: Setting)
      requires Valid() && Resting(cfg, s) && Within(w) && w.first == gapsUsed <= w.n && Steered(w, At())
      ensures var k := At().(s := Opened(cfg, s)); RunOk(w, k) && Poised(w, k.s) && k.s.timely == s.timely
      ensures s.timely ==> Opened(cfg, s).now == 0.0
    {
      hide Inv, Env, Undirected, Resting, Steered, SettingOk, RunOk, Poised, CountsOk, P2PGraph.Valid;
      EnvNow(s.timely);
      OpenedRuns(w, At(), At().(s := Opened(cfg, s)));
    }

    /** Puts the first events of a run on the heap. */
    method Start(ghost w: Setting)
      requires Valid() && Resting(cfg, s) && Within(w) && w.first == gapsUsed <= w.n && Steered(w, At())
      modifies this`events, this`counter, this`s
      ensures Valid() && At() == old(At()).(s := Opened(cfg, old(s)))
      ensures RunOk(w, At()) && Poised(w, s) && s.timely == old(s.timely)
    {
      hide Valid, Resting, Steered, SettingOk, RunOk, Poised, HasKind;
      ghost var k := At();
      StartOk(w);
      Begin();
      ScheduleOther(0.0, Generate);
      if (cfg.congestionRate > 0.0 || cfg.churnRate > 0.0) && cfg.perturbInterval > 0.0 {
        ScheduleOther(cfg.perturbInterval, Perturb);
      }
    }

    /** The clock of the history starts anew. */
    ghost method Begin()
      requires Valid() && Resting(cfg, s)
      modifies this`s
      ensures Valid() && s == Begun(old(s)) && !HasKind(s.events, Generate)
    {
      hide CountsOk, Env, Undirected, Inv, P2PGraph.Valid;
      BegunKeeps(cfg, links, graph.sybilNodes, s);
      s := Begun(s);
    }

    /** The packets that are not finished are added to those that were in flight at the end of an earlier run, so
        the counts add up exactly if there were none. */
    method Finish() returns (stats: EventStats)
      requires Conserved(s) && s.packets == packets && s.delivered == delivered && s.dropped == dropped
      modifies this`inFlight
      ensures InFlightGrows(old(inFlight))
      ensures stats == EventStats(|packets|, |delivered|, |dropped|, |inFlight|, dropReasons, retransmissions)
      ensures stats.generated == stats.delivered + stats.dropped + stats.inFlight <==> old(inFlight) == []
    {
      var found := InFlight(|packets|, delivered, dropped);
      PartedCount(|packets|, delivered, dropped, found);
      inFlight := inFlight + found;
      stats := EventStats(|packets|, |delivered|, |dropped|, |inFlight|, dropReasons, retransmissions);
    }

    /** Exactly the packets without a terminal record were added to `before`. */
    ghost predicate InFlightGrows(before: seq<nat>)
      reads this`inFlight, this`packets, this`delivered, this`dropped
    {
      exists found :: inFlight == before + found && Parted(|packets|, delivered, dropped, found)
    }

    /** A whole run of a simulator, which may have run before: it ends, is made of exact steps of the least event
        until the next one is past the end, conserves packets, and keeps every invariant. `n` is any number of
        generations whose gaps outlast the duration. */
    method Run(duration: real, trafficRate: real, drainTime: real, ghost n: nat)
      returns (stats: EventStats, ghost marks: seq<Mark>, ghost log: seq<Event>)
      requires Valid() && Resting(cfg, s) && DrawsOk(oracle, links)
      requires gapsUsed <= n && (trafficRate > 0.0 ==> Elapsed(oracle.gaps, gapsUsed, n) > duration)
      modifies this, graph`adj, graph`sybilNodes, graph`offlineNodes
      ensures Valid() && Resting(cfg, s) && graph.sybilNodes == old(graph.sybilNodes) && s.timely == old(s.timely)
      ensures RunOf(old(Course(duration, trafficRate, drainTime, n)), old(At()), marks, log, At())
      ensures s.timely ==> InOrder(log)
      ensures Inv(cfg, links, graph.sybilNodes, s) && s.packets == packets && s.delivered == delivered
      ensures s.dropped == dropped && InFlightGrows(old(inFlight))
      ensures stats == EventStats(|packets|, |delivered|, |dropped|, |inFlight|, dropReasons, retransmissions)
      ensures stats.generated == stats.delivered + stats.dropped + stats.inFlight <==> old(inFlight) == []
      ensures CountsOk(stats.dropReasons, s.reasons) && |s.reasons| == stats.dropped
      ensures ShortestSolver(oracle) && Connected(links) && old(RoutedSoFar()) ==> RoutedSoFar()
      ensures CarefulSolver(oracle) && old(WarySoFar()) ==> WarySoFar()
      ensures old(LosslessSoFar()) ==> LosslessSoFar()
      ensures ShortestSolver(oracle) && Connected(links) && old(RoutedSoFar() && LosslessSoFar()) ==>
        AllArrived(cfg, links, s)
    {
      hide Valid, Inv, RunOk, CountsOk, DrawsOk, Connected, ShortestSolver, CarefulSolver, Routed, Wary, Conserved,
           HeapMatches, Parted, Logged, InOrder, NobodyBlamed, Elapsed, Undirected, Resting, Traced, Opened, Ended;
      LinksUndirected();
      var end := duration + if drainTime > 0.0 then drainTime else 0.0;
      ghost var w := Course(duration, trafficRate, drainTime, n);
      Start(w);
      marks, log := RunEvents(duration, trafficRate, end, w);
      ValidFacts();
      if w.shortest && w.lossless { AllArrive(cfg, links, graph.sybilNodes, s); }
      stats := Finish();
    }

    /** Handles events in order until none is left or the next one is past the end, which is taken off the heap
        unhandled. */
    method RunEvents(duration: real, trafficRate: real, end: real, ghost w: Setting)
      returns (ghost marks: seq<Mark>, ghost log: seq<Event>)
      requires Valid() && Within(w) && w.duration == duration && w.rate == trafficRate && w.end == end
      requires RunOk(w, At()) && Poised(w, s)
      modifies this, graph`adj, graph`sybilNodes, graph`offlineNodes
      ensures Valid() && Resting(cfg, s) && Steered(w, At()) && s.timely == old(s.timely)
      ensures Traced(w, marks, log) && marks[0] == old(At()) && Ended(w, marks[|log|], At())
      ensures graph.sybilNodes == old(graph.sybilNodes) && inFlight == old(inFlight) && (s.timely ==> InOrder(log))
    {
      hide Valid, RunOk, Grown, Gens, Load, TickSum, CountsOk, Earlier, Conserved, HeapMatches, Logged, InOrder, Inv,
           SettingOk, Stepped, Traced, Steered, Resting, Poised;
      marks, log := [At()], [];
      NothingLogged(s);
      NothingTraced(w, At());
      while events != {}
        invariant Valid() && graph.sybilNodes == old(graph.sybilNodes) && Within(w) && RunOk(w, At()) && Poised(w, s)
        invariant Traced(w, marks, log) && |marks| == |log| + 1 && marks[0] == old(At()) && marks[|log|] == At()
        invariant Logged(log, s)
        invariant s.timely == old(s.timely) && inFlight == old(inFlight)
        decreases Gens(w, At()), Load(s, |s.packets|), TickSum(w, s.events)
      {
        var e := LeastEvent(events);
        ValidFacts();
        if e.time > end {
          LoggedInOrder(log, s);
          Discard(e, w);
          return;
        }
        ghost var before := s;
        Handle(e, duration, trafficRate, end, w);
        ValidFacts();
        StillPoised(w, before, e, s);
        LogNext(log, before, e, s);
        PoppedTimely(before, e, s);
        TraceNext(w, marks, log, e, At());
        marks, log := marks + [At()], log + [e];
      }
      ValidFacts();
      LoggedInOrder(log, s);
      NothingRests(w, At());
    }

    /** Takes an event past the end off the heap, which ends the run. */
    method Discard(e: Event, ghost w: Setting)
      requires Valid() && Within(w) && RunOk(w, At()) && Poised(w, s) && IsLeast(events, e) && e.time > w.end
      modifies this`events, this`s
      ensures Valid() && Resting(cfg, s) && Steered(w, At()) && Ended(w, old(At()), At()) && s.timely == old(s.timely)
    {
      hide Inv, Env, RunOk, CountsOk, Undirected, SettingOk, Earlier, Steered, Resting, Poised, P2PGraph.Valid;
      EndedRests(w, At(), e);
      events := events - {e};
      s := Discarded(s, e);
    }
  }
}
