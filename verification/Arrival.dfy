/** What one arrival does to the simulator's state (_handle_arrive of aegis_router/event_sim.py), as a
    function of the solver's answer and the number of failed tries, and what every arrival keeps. */
module Arrival {
  import opened Network
  import opened HopDistance
  import opened PathSearch
  import opened Packets
  import opened SimState
  import opened Routes
  import opened Reals
  import opened Selection

  // ---- links keep their ends, whatever happens to their metrics -------------------

  ghost predicate SameLinks(a: Adjacency, b: Adjacency) {
    a.Keys == b.Keys && forall n :: n in a ==> a[n].Keys == b[n].Keys
  }

  ghost predicate LatenciesNonNegative(adj: Adjacency) {
    forall a, b :: a in adj && b in adj[a] ==> adj[a][b].latency >= 0.0
  }

  lemma SameDistances(a: Adjacency, b: Adjacency, off: set<NodeId>, x: NodeId, y: NodeId)
    requires SameLinks(a, b)
    ensures forall d: nat :: Reaches(a, off, x, y, d) <==> Reaches(b, off, x, y, d)
    ensures forall d: nat :: IsDist(a, off, x, y, d) <==> IsDist(b, off, x, y, d)
  {
  }

  /** The shortest-path answer depends on the links only, not on their metrics. */
  lemma SameAnswer(a: Adjacency, b: Adjacency, off: set<NodeId>, src: NodeId, dst: NodeId, next: Option<NodeId>)
    requires SameLinks(a, b) && ShortestAnswer(a, off, src, dst, next)
    ensures ShortestAnswer(b, off, src, dst, next)
  {
    SameDistances(a, b, off, src, dst);
    if next.Some? {
      var d: nat :| IsFirstHop(a, off, src, dst, d, next.value);
      assert ReachableNeighbors(a, off, src) == ReachableNeighbors(b, off, src);
      forall h ensures IsDist(a, off, h, dst, d) <==> IsDist(b, off, h, dst, d) {
        SameDistances(a, b, off, h, dst);
      }
      assert IsFirstHop(b, off, src, dst, d, next.value);
    }
  }

  // ---- one arrival -------------------------------------------------------------------

  function EffectiveLoss(c: Config, sybils: set<NodeId>, m: LinkMetrics, nxt: NodeId): real {
    Min(0.95, m.loss + if nxt in sybils then c.sybilExtraDrop else 0.0)
  }

  function Service(c: Config, m: LinkMetrics): real {
    c.serviceTime / Max(0.05, m.bandwidth)
  }

  /** The packet handed to the solver: the current node counts as visited. */
  function Asked(p: Packet): Packet {
    p.(visited := p.visited + {p.node})
  }

  /** A packet that was transmitted towards nxt, whether or not it got there. */
  function Sent(sybils: set<NodeId>, p: Packet, nxt: NodeId, loss: real): Packet {
    p.(lossRisk := 1.0 - (1.0 - p.lossRisk) * (1.0 - loss),
       touchedSybil := p.touchedSybil || nxt in sybils,
       touchedTransit := p.touchedTransit || (nxt in sybils && nxt != p.dst),
       lastFrom := Some(p.node), lastNeighbor := Some(nxt))
  }

  function Granted(c: Config, s: State, p: Packet, nxt: NodeId, m: LinkMetrics): Grant {
    var link := (p.node, nxt);
    var start := Later(s.now, if link in s.available then Some(s.available[link]) else None);
    Grant(link, s.now, start, start + Service(c, m))
  }

  function Charged(c: Config, m: LinkMetrics, failed: nat): real {
    failed as real * (m.latency + Service(c, m))
  }

  function Hopped(c: Config, sybils: set<NodeId>, p: Packet, nxt: NodeId, m: LinkMetrics, g: Grant, failed: nat): Packet
  {
    Sent(sybils, p, nxt, EffectiveLoss(c, sybils, m, nxt)).(
      queueDelay := p.queueDelay + (g.start - g.arrived),
      latency := p.latency + (m.latency + (g.start - g.arrived) + Service(c, m)) + Charged(c, m, failed),
      node := nxt, hops := p.hops + 1, ttl := p.ttl - 1)
  }

  function Ahead(adj: Adjacency, off: set<NodeId>, p: Packet): Outlook {
    var live := ReachableNeighbors(adj, off, p.node);
    if live == {} then Stranded else if live <= p.visited then Cornered else Open
  }

  function ForwardStep(c: Config, sybils: set<NodeId>, s: State, nxt: NodeId, m: LinkMetrics, failed: nat,
      ahead: Outlook): State
    requires s.current.Some? && s.current.value < |s.packets| == |s.trails|
  {
    var p, t := s.packets[s.current.value], s.trails[s.current.value];
    var g := Granted(c, s, p, nxt, m);
    Forwarded(s, Hopped(c, sybils, Asked(p), nxt, m, g, failed), HopTrail(c, t, nxt, m, failed, ahead),
      g.end + m.latency, g)
  }

  /** The packet after the solver's answer `next`, tried on a link that failed `failed` times. */
  function DecisionStep(c: Config, adj: Adjacency, off: set<NodeId>, sybils: set<NodeId>, s: State,
      next: Option<NodeId>, failed: nat): State
    requires s.current.Some? && s.current.value < |s.packets| == |s.trails|
  {
    var id := s.current.value;
    var p := Asked(s.packets[id]);
    var ahead := Ahead(adj, off, p);
    if next.None? || next.value !in Neighbors(adj, p.node) then Dropped(s, p, NoRoute, ahead)
    else
      var nxt := next.value;
      if nxt in off then Dropped(s, p.(lastFrom := Some(p.node), lastNeighbor := next), NodeDown, ahead)
      else
        var m := adj[p.node][nxt];
        if failed > c.retries then
          Dropped(s, Sent(sybils, p, nxt, EffectiveLoss(c, sybils, m, nxt)),
            if nxt in sybils then SybilDrop else LinkLoss, ahead)
        else
          ForwardStep(c, sybils, s, nxt, m, failed, ahead)
  }

  function ArriveStep(c: Config, adj: Adjacency, off: set<NodeId>, sybils: set<NodeId>, s: State, next: Option<NodeId>,
      failed: nat): State
    requires s.current.Some? && s.current.value < |s.packets| == |s.trails|
  {
    var id := s.current.value;
    var p, t := s.packets[id], s.trails[id];
    if p.node == p.dst then Delivered(s)
    else if p.node in off then Dropped(s, p, NodeDown, t.ahead)
    else if p.ttl <= 0 then Dropped(s, p, TtlExpired, t.ahead)
    else if p.node in p.visited then Dropped(s, p, Loop, t.ahead)
    else DecisionStep(c, adj, off, sybils, s, next, failed)
  }

  /** Without a live link in the answer the packet is dropped where it is. */
  lemma UnroutedStep(c: Config, adj: Adjacency, off: set<NodeId>, sybils: set<NodeId>, s: State, packet: Packet,
      next: Option<NodeId>, failed: nat)
    requires s.current.Some? && s.current.value < |s.packets| == |s.trails|
    requires packet == Asked(s.packets[s.current.value])
    ensures next.None? || next.value !in Neighbors(adj, packet.node) ==>
      DecisionStep(c, adj, off, sybils, s, next, failed) == Dropped(s, packet, NoRoute, Ahead(adj, off, packet))
    ensures next.Some? && next.value in Neighbors(adj, packet.node) && next.value in off ==>
      DecisionStep(c, adj, off, sybils, s, next, failed) ==
      Dropped(s, packet.(lastFrom := Some(packet.node), lastNeighbor := next), NodeDown, Ahead(adj, off, packet))
  {
    hide Dropped, ForwardStep, Sent, EffectiveLoss;
  }

  lemma LinkStep(c: Config, adj: Adjacency, off: set<NodeId>, sybils: set<NodeId>, s: State, packet: Packet,
      nxt: NodeId, failed: nat)
    requires s.current.Some? && s.current.value < |s.packets| == |s.trails|
    requires packet == Asked(s.packets[s.current.value])
    requires nxt in Neighbors(adj, packet.node) && nxt !in off
    ensures DecisionStep(c, adj, off, sybils, s, Some(nxt), failed) ==
      var m, ahead := adj[packet.node][nxt], Ahead(adj, off, packet);
      if failed > c.retries
      then Dropped(s, Sent(sybils, packet, nxt, EffectiveLoss(c, sybils, m, nxt)),
                   if nxt in sybils then SybilDrop else LinkLoss, ahead)
      else ForwardStep(c, sybils, s, nxt, m, failed, ahead)
    ensures packet.node == s.packets[s.current.value].node
    ensures Sent(sybils, packet, nxt, EffectiveLoss(c, sybils, adj[packet.node][nxt], nxt)).id == packet.id
  {
    hide Dropped, ForwardStep, EffectiveLoss;
  }

  /** The links are those of the topology; in a timely run none takes negative time. */
  ghost predicate Env(c: Config, links: Adjacency, adj: Adjacency, timely: bool) {
    SameLinks(adj, links) && (timely ==> LatenciesNonNegative(adj) && c.serviceTime >= 0.0)
  }

  function HopTrail(c: Config, t: Trail, nxt: NodeId, m: LinkMetrics, failed: nat, ahead: Outlook): Trail {
    Trail(t.walk + [nxt], t.penalty + Charged(c, m, failed), t.arrivals, ahead)
  }

  lemma HopMoves(c: Config, links: Adjacency, sybils: set<NodeId>, p: Packet, t: Trail, nxt: NodeId, m: LinkMetrics,
      g: Grant, failed: nat, ahead: Outlook)
    requires p.node != p.dst && p.node !in p.visited && p.ttl > 0 && nxt in Neighbors(links, p.node)
    ensures Moves(links, sybils, p, t, Hopped(c, sybils, Asked(p), nxt, m, g, failed),
      HopTrail(c, t, nxt, m, failed, ahead), nxt)
    ensures Hopped(c, sybils, Asked(p), nxt, m, g, failed).node == nxt
  {
  }

  /** What failed tries cost is charged to latency and to the penalty alike. */
  lemma HopClock(c: Config, sybils: set<NodeId>, s: State, p: Packet, t: Trail, nxt: NodeId, m: LinkMetrics,
      failed: nat, ahead: Outlook)
    requires s.now == Clock(p, t)
    ensures var g := Granted(c, s, p, nxt, m);
      g.end + m.latency == Clock(Hopped(c, sybils, Asked(p), nxt, m, g, failed), HopTrail(c, t, nxt, m, failed, ahead))
  {
  }

  lemma GrantOrder(c: Config, s: State, p: Packet, nxt: NodeId, m: LinkMetrics)
    requires s.timely ==> c.serviceTime >= 0.0
    ensures var g := Granted(c, s, p, nxt, m);
      NextSlot(s, g) && g.link == (p.node, nxt) && (s.timely ==> s.now <= g.start <= g.end)
  {
  }

  lemma ForwardKeeps(c: Config, links: Adjacency, sybils: set<NodeId>, s: State, nxt: NodeId, m: LinkMetrics,
      failed: nat, ahead: Outlook)
    requires Inv(c, links, sybils, s) && s.current.Some? && (s.timely ==> c.serviceTime >= 0.0 && m.latency >= 0.0)
    requires var p := s.packets[s.current.value];
      p.node != p.dst && p.node !in p.visited && p.ttl > 0 && nxt in Neighbors(links, p.node)
    ensures Inv(c, links, sybils, ForwardStep(c, sybils, s, nxt, m, failed, ahead))
  {
    hide Inv, Shape, Travelling, Hopped, HopTrail, Moves, Clock, Granted, Later, Forwarded, Asked, NextSlot;
    InvCurrent(c, links, sybils, s);
    var p, t := s.packets[s.current.value], s.trails[s.current.value];
    var g := Granted(c, s, p, nxt, m);
    var p', t' := Hopped(c, sybils, Asked(p), nxt, m, g, failed), HopTrail(c, t, nxt, m, failed, ahead);
    HopMoves(c, links, sybils, p, t, nxt, m, g, failed, ahead);
    HopClock(c, sybils, s, p, t, nxt, m, failed, ahead);
    GrantOrder(c, s, p, nxt, m);
    ForwardedKeeps(c, links, sybils, s, p', t', g.end + m.latency, g);
  }

  lemma DecisionKeeps(c: Config, links: Adjacency, adj: Adjacency, off: set<NodeId>, sybils: set<NodeId>, s: State,
      next: Option<NodeId>, failed: nat)
    requires Inv(c, links, sybils, s) && s.current.Some? && Env(c, links, adj, s.timely)
    requires var p := s.packets[s.current.value]; p.node != p.dst && p.node !in p.visited && p.ttl > 0
    ensures Inv(c, links, sybils, DecisionStep(c, adj, off, sybils, s, next, failed))
  {
    hide Inv, ForwardStep, Dropped, EffectiveLoss, DecisionStep, Shape, Travelling, Fits, Sent, Asked;
    InvCurrent(c, links, sybils, s);
    var p := Asked(s.packets[s.current.value]);
    var ahead := Ahead(adj, off, p);
    AskedStays(s.packets[s.current.value]);
    UnroutedStep(c, adj, off, sybils, s, p, next, failed);
    if next.None? || next.value !in Neighbors(adj, p.node) {
      LostFits(sybils, p, next, 0.0);
      DroppedKeeps(c, links, sybils, s, p, NoRoute, ahead);
    } else if next.value in off {
      LostFits(sybils, p, next, 0.0);
      DroppedKeeps(c, links, sybils, s, p.(lastFrom := Some(p.node), lastNeighbor := next), NodeDown, ahead);
    } else {
      var nxt := next.value;
      var m := adj[p.node][nxt];
      LinkStep(c, adj, off, sybils, s, p, nxt, failed);
      if failed > c.retries {
        LostFits(sybils, p, next, EffectiveLoss(c, sybils, m, nxt));
        DroppedKeeps(c, links, sybils, s, Sent(sybils, p, nxt, EffectiveLoss(c, sybils, m, nxt)),
          if nxt in sybils then SybilDrop else LinkLoss, ahead);
      } else {
        ForwardKeeps(c, links, sybils, s, nxt, m, failed, ahead);
      }
    }
  }

  lemma AskedStays(p: Packet)
    ensures SamePlace(p, Asked(p)) && Asked(p).node == p.node && Asked(p).dst == p.dst && Asked(p).ttl == p.ttl
  {
  }

  /** A packet dropped over the solver's answer fits its reason, and has not moved. */
  lemma LostFits(sybils: set<NodeId>, p: Packet, next: Option<NodeId>, loss: real)
    requires p.ttl > 0
    ensures Fits(sybils, NoRoute, p) && Fits(sybils, NodeDown, p.(lastFrom := Some(p.node), lastNeighbor := next))
    ensures next.Some? ==>
      var q := Sent(sybils, p, next.value, loss);
      && Fits(sybils, if next.value in sybils then SybilDrop else LinkLoss, q)
      && SamePlace(p, q) && q.node == p.node && q.dst == p.dst
  {
  }

  lemma InvCurrent(c: Config, links: Adjacency, sybils: set<NodeId>, s: State)
    requires Inv(c, links, sybils, s) && s.current.Some?
    ensures s.current.value < |s.packets| == |s.trails|
    ensures s.now == Clock(s.packets[s.current.value], s.trails[s.current.value])
    ensures Shape(c, links, s.current.value, s.packets[s.current.value], s.trails[s.current.value], false)
    ensures Travelling(sybils, s.packets[s.current.value], s.trails[s.current.value])
  {
    assert PacketOk(c, links, sybils, s, s.current.value);
  }

  /** Every invariant of the run survives an arrival, whatever the solver answers and the links do. */
  lemma ArriveKeeps(c: Config, links: Adjacency, adj: Adjacency, off: set<NodeId>, sybils: set<NodeId>, s: State,
      next: Option<NodeId>, failed: nat)
    requires Inv(c, links, sybils, s) && s.current.Some? && Env(c, links, adj, s.timely)
    ensures Inv(c, links, sybils, ArriveStep(c, adj, off, sybils, s, next, failed))
    ensures ArriveStep(c, adj, off, sybils, s, next, failed).current == None
  {
    hide Inv, PacketOk, Conserved, HeapMatches, QueuesOk, DecisionStep;
    InvCurrent(c, links, sybils, s);
    var p, ahead := s.packets[s.current.value], s.trails[s.current.value].ahead;
    if p.node == p.dst {
      DeliveredKeeps(c, links, sybils, s);
    } else if p.node in off {
      DroppedKeeps(c, links, sybils, s, p, NodeDown, ahead);
    } else if p.ttl <= 0 {
      DroppedKeeps(c, links, sybils, s, p, TtlExpired, ahead);
    } else if p.node in p.visited {
      DroppedKeeps(c, links, sybils, s, p, Loop, ahead);
    } else {
      DecisionKeeps(c, links, adj, off, sybils, s, next, failed);
      DecisionEnds(c, adj, off, sybils, s, next, failed);
    }
  }

  lemma DecisionEnds(c: Config, adj: Adjacency, off: set<NodeId>, sybils: set<NodeId>, s: State, next: Option<NodeId>,
      failed: nat)
    requires s.current.Some? && s.current.value < |s.packets| == |s.trails|
    ensures DecisionStep(c, adj, off, sybils, s, next, failed).current == None
  {
  }

  // ---- what becomes of an arriving packet ---------------------------------------------------

  /** Why an arriving packet is dropped, if it is: each reason has a condition of its own. */
  predicate DropsFor(c: Config, adj: Adjacency, off: set<NodeId>, sybils: set<NodeId>, p: Packet, next: Option<NodeId>,
      failed: nat, reason: Reason)
  {
    && p.node != p.dst
    && match reason
       case NodeDown =>
         || p.node in off
         || (p.ttl > 0 && p.node !in p.visited && next.Some? && next.value in Neighbors(adj, p.node)
             && next.value in off)
       case TtlExpired => p.node !in off && p.ttl <= 0
       case Loop => p.node !in off && p.ttl > 0 && p.node in p.visited
       case NoRoute =>
         && p.node !in off && p.ttl > 0 && p.node !in p.visited
         && (next.None? || next.value !in Neighbors(adj, p.node))
       case LinkLoss => Transmits(adj, off, p, next) && failed > c.retries && next.value !in sybils
       case SybilDrop => Transmits(adj, off, p, next) && failed > c.retries && next.value in sybils
       case BadSignature => false
  }

  /** The packet goes out on a link to a live neighbour. */
  predicate Transmits(adj: Adjacency, off: set<NodeId>, p: Packet, next: Option<NodeId>) {
    && p.node != p.dst && p.node !in off && p.ttl > 0 && p.node !in p.visited
    && next.Some? && next.value in Neighbors(adj, p.node) && next.value !in off
  }

  /** What a transmission costs: the service time, the latency of all tries, and the loss risk accumulated by then. */
  datatype Costs = Costs(service: real, air: real, risk: real)

  predicate Priced(c: Config, m: LinkMetrics, sybils: set<NodeId>, p: Packet, nxt: NodeId, failed: nat, x: Costs) {
    var total := m.loss + if nxt in sybils then c.sybilExtraDrop else 0.0;
    var loss := if total < 0.95 then total else 0.95;
    && x.service * (if m.bandwidth > 0.05 then m.bandwidth else 0.05) == c.serviceTime
    && x.air == (1 + failed) as real * (m.latency + x.service)
    && 1.0 - x.risk == (1.0 - p.lossRisk) * (1.0 - loss)
  }

  /** The packet is on its way over a link: it waits for the link, is charged for every try, and its arrival is due. */
  predicate GoesOn(m: LinkMetrics, sybils: set<NodeId>, s: State, id: nat, nxt: NodeId, start: real, x: Costs,
      s': State)
    requires id < |s.packets|
  {
    var p := s.packets[id];
    var link := (p.node, nxt);
    && start >= s.now && (link in s.available ==> start >= s.available[link])
    && (start == s.now || (link in s.available && start == s.available[link]))
    && id < |s'.packets| && s'.packets == s.packets[id := s'.packets[id]]
    && s'.packets[id] == p.(
         node := nxt, visited := p.visited + {p.node}, hops := p.hops + 1, ttl := p.ttl - 1,
         queueDelay := p.queueDelay + (start - s.now), latency := p.latency + (start - s.now) + x.air,
         lossRisk := x.risk,
         touchedSybil := p.touchedSybil || nxt in sybils,
         touchedTransit := p.touchedTransit || (nxt in sybils && nxt != p.dst),
         lastFrom := Some(p.node), lastNeighbor := Some(nxt))
    && s'.events == s.events + {Event(start + x.service + m.latency, s.counter, Arrive(id))}
    && s'.available == s.available[link := start + x.service]
    && s'.delivered == s.delivered && s'.dropped == s.dropped && s'.reasons == s.reasons
  }

  /** The packet gets one more terminal record, with its reason, and nothing else happens. */
  predicate GivenUp(s: State, id: nat, reason: Reason, s': State) {
    && s'.delivered == s.delivered && s'.dropped == s.dropped + [id] && s'.reasons == s.reasons + [reason]
    && s'.events == s.events && s'.available == s.available
  }

  lemma DroppedGivesUp(s: State, p: Packet, reason: Reason, ahead: Outlook)
    requires s.current.Some? && s.current.value < |s.packets| == |s.trails|
    ensures GivenUp(s, s.current.value, reason, Dropped(s, p, reason, ahead))
  {
  }

  lemma ArriveDrops(c: Config, adj: Adjacency, off: set<NodeId>, sybils: set<NodeId>, s: State, next: Option<NodeId>,
      failed: nat, reason: Reason)
    requires s.current.Some? && s.current.value < |s.packets| == |s.trails|
    requires DropsFor(c, adj, off, sybils, s.packets[s.current.value], next, failed, reason)
    ensures GivenUp(s, s.current.value, reason, ArriveStep(c, adj, off, sybils, s, next, failed))
  {
    hide Dropped, ForwardStep, DecisionStep, GivenUp, EffectiveLoss, Sent;
    var p, ahead := s.packets[s.current.value], s.trails[s.current.value].ahead;
    var q, ahead' := Asked(p), Ahead(adj, off, Asked(p));
    DroppedGivesUp(s, p, reason, ahead);
    if p.node !in off && p.ttl > 0 && p.node !in p.visited {
      UnroutedStep(c, adj, off, sybils, s, q, next, failed);
      DroppedGivesUp(s, q, NoRoute, ahead');
      DroppedGivesUp(s, q.(lastFrom := Some(p.node), lastNeighbor := next), NodeDown, ahead');
      if Transmits(adj, off, p, next) {
        var nxt := next.value;
        LinkStep(c, adj, off, sybils, s, q, nxt, failed);
        DroppedGivesUp(s, Sent(sybils, q, nxt, EffectiveLoss(c, sybils, adj[p.node][nxt], nxt)), reason, ahead');
      }
    }
  }

  /** A packet at its destination is delivered; any other is dropped, for exactly one reason, or goes on. */
  lemma ArriveVerdict(c: Config, adj: Adjacency, off: set<NodeId>, sybils: set<NodeId>, s: State, next: Option<NodeId>,
      failed: nat)
    requires s.current.Some? && s.current.value < |s.packets| == |s.trails|
    ensures var id, s' := s.current.value, ArriveStep(c, adj, off, sybils, s, next, failed);
      var p := s.packets[id];
      && (p.node == p.dst ==>
            && s'.delivered == s.delivered + [id] && s'.dropped == s.dropped && s'.reasons == s.reasons
            && s'.packets == s.packets && s'.events == s.events)
      && (p.node != p.dst ==> s'.delivered == s.delivered)
      && (forall reason :: DropsFor(c, adj, off, sybils, p, next, failed, reason) ==> GivenUp(s, id, reason, s'))
      && (p.node != p.dst ==>
            ((Transmits(adj, off, p, next) && failed <= c.retries) <==>
             (forall reason :: !DropsFor(c, adj, off, sybils, p, next, failed, reason))))
      && (Transmits(adj, off, p, next) && failed <= c.retries ==>
            var m := adj[p.node][next.value];
            exists start, x: Costs ::
              Priced(c, m, sybils, p, next.value, failed, x) && GoesOn(m, sybils, s, id, next.value, start, x, s'))
  {
    hide GoesOn, Priced, ForwardStep, Dropped, GivenUp, DecisionStep;
    var p := s.packets[s.current.value];
    forall reason | DropsFor(c, adj, off, sybils, p, next, failed, reason)
      ensures GivenUp(s, s.current.value, reason, ArriveStep(c, adj, off, sybils, s, next, failed))
    {
      ArriveDrops(c, adj, off, sybils, s, next, failed, reason);
    }
    if p.node != p.dst { UndeliveredElsewhere(c, adj, off, sybils, s, next, failed); }
    if Transmits(adj, off, p, next) && failed <= c.retries {
      ArriveGoes(c, adj, off, sybils, s, next, failed);
    } else if p.node != p.dst {
      SomeReason(c, adj, off, sybils, p, next, failed);
    }
  }

  /** What is kept of a packet that is given up: where it was, and the hop it was sent to or would have been; a
      failing link has cost it, and exposed it, as a working one would. */
  ghost predicate KeptAs(c: Config, adj: Adjacency, off: set<NodeId>, sybils: set<NodeId>, p: Packet,
      next: Option<NodeId>, failed: nat, q: Packet)
  {
    if p.node in off || p.ttl <= 0 || p.node in p.visited then q == p
    else if next.None? || next.value !in Neighbors(adj, p.node) then q == p.(visited := p.visited + {p.node})
    else if next.value in off
    then q == p.(visited := p.visited + {p.node}, lastFrom := Some(p.node), lastNeighbor := next)
    else
      var nxt := next.value;
      exists x: Costs ::
        && Priced(c, adj[p.node][nxt], sybils, p, nxt, failed, x)
        && q == p.(visited := p.visited + {p.node}, lossRisk := x.risk,
                   touchedSybil := p.touchedSybil || nxt in sybils,
                   touchedTransit := p.touchedTransit || (nxt in sybils && nxt != p.dst),
                   lastFrom := Some(p.node), lastNeighbor := next)
  }

  lemma ArriveKeepsRecord(c: Config, adj: Adjacency, off: set<NodeId>, sybils: set<NodeId>, s: State,
      next: Option<NodeId>, failed: nat)
    requires s.current.Some? && s.current.value < |s.packets| == |s.trails|
    requires var p := s.packets[s.current.value];
      p.node != p.dst && !(Transmits(adj, off, p, next) && failed <= c.retries)
    ensures var id, s' := s.current.value, ArriveStep(c, adj, off, sybils, s, next, failed);
      && |s'.packets| == |s.packets| && s'.packets == s.packets[id := s'.packets[id]]
      && KeptAs(c, adj, off, sybils, s.packets[id], next, failed, s'.packets[id])
  {
    hide Priced, ForwardStep, DecisionStep, EffectiveLoss, Charged, Service;
    var p := s.packets[s.current.value];
    var q := Asked(p);
    if p.node !in off && p.ttl > 0 && p.node !in p.visited {
      UnroutedStep(c, adj, off, sybils, s, q, next, failed);
      if next.Some? && next.value in Neighbors(adj, p.node) && next.value !in off {
        LinkStep(c, adj, off, sybils, s, q, next.value, failed);
        TriesPriced(c, sybils, adj[p.node][next.value], p, next.value, failed);
      }
    }
  }

  lemma UndeliveredElsewhere(c: Config, adj: Adjacency, off: set<NodeId>, sybils: set<NodeId>, s: State,
      next: Option<NodeId>, failed: nat)
    requires s.current.Some? && s.current.value < |s.packets| == |s.trails|
    requires s.packets[s.current.value].node != s.packets[s.current.value].dst
    ensures ArriveStep(c, adj, off, sybils, s, next, failed).delivered == s.delivered
  {
    hide Granted, Hopped, HopTrail, Sent, EffectiveLoss;
  }

  lemma ArriveGoes(c: Config, adj: Adjacency, off: set<NodeId>, sybils: set<NodeId>, s: State, next: Option<NodeId>,
      failed: nat)
    requires s.current.Some? && s.current.value < |s.packets| == |s.trails| && failed <= c.retries
    requires Transmits(adj, off, s.packets[s.current.value], next)
    ensures var id, nxt, s' := s.current.value, next.value, ArriveStep(c, adj, off, sybils, s, next, failed);
      var m := adj[s.packets[id].node][nxt];
      exists start, x: Costs ::
        Priced(c, m, sybils, s.packets[id], nxt, failed, x) && GoesOn(m, sybils, s, id, nxt, start, x, s')
  {
    hide GoesOn, Priced, ForwardStep, DecisionStep, Dropped, EffectiveLoss, Sent;
    var p, nxt := s.packets[s.current.value], next.value;
    ForwardGoesOn(c, adj, off, sybils, s, nxt, failed);
    LinkStep(c, adj, off, sybils, s, Asked(p), nxt, failed);
    assert next == Some(nxt) && Asked(p).node == p.node;
    assert ArriveStep(c, adj, off, sybils, s, next, failed) ==
      ForwardStep(c, sybils, s, nxt, adj[p.node][nxt], failed, Ahead(adj, off, Asked(p)));
  }

  lemma SomeReason(c: Config, adj: Adjacency, off: set<NodeId>, sybils: set<NodeId>, p: Packet, next: Option<NodeId>,
      failed: nat)
    requires p.node != p.dst && !(Transmits(adj, off, p, next) && failed <= c.retries)
    ensures exists reason :: DropsFor(c, adj, off, sybils, p, next, failed, reason)
  {
    var reason :=
      if p.node in off then NodeDown
      else if p.ttl <= 0 then TtlExpired
      else if p.node in p.visited then Loop
      else if next.None? || next.value !in Neighbors(adj, p.node) then NoRoute
      else if next.value in off then NodeDown
      else if next.value in sybils then SybilDrop else LinkLoss;
    assert DropsFor(c, adj, off, sybils, p, next, failed, reason);
  }

  lemma ForwardGoesOn(c: Config, adj: Adjacency, off: set<NodeId>, sybils: set<NodeId>, s: State, nxt: NodeId,
      failed: nat)
    requires s.current.Some? && s.current.value < |s.packets| == |s.trails|
    requires var p := s.packets[s.current.value]; nxt in Neighbors(adj, p.node)
    ensures var m := adj[s.packets[s.current.value].node][nxt];
      exists start, x: Costs ::
        Priced(c, m, sybils, s.packets[s.current.value], nxt, failed, x) &&
        GoesOn(m, sybils, s, s.current.value, nxt, start, x,
               ForwardStep(c, sybils, s, nxt, m, failed, Ahead(adj, off, Asked(s.packets[s.current.value]))))
  {
    var id := s.current.value;
    var p := s.packets[id];
    var m := adj[p.node][nxt];
    var g := Granted(c, s, Asked(p), nxt, m);
    var x := Costs(Service(c, m), Service(c, m) + m.latency + Charged(c, m, failed),
      Sent(sybils, p, nxt, EffectiveLoss(c, sybils, m, nxt)).lossRisk);
    TriesPriced(c, sybils, m, p, nxt, failed);
    hide Charged, Service, Priced;
    assert GoesOn(m, sybils, s, id, nxt, g.start, x,
      ForwardStep(c, sybils, s, nxt, m, failed, Ahead(adj, off, Asked(p))));
  }

  lemma TriesPriced(c: Config, sybils: set<NodeId>, m: LinkMetrics, p: Packet, nxt: NodeId, failed: nat)
    ensures Priced(c, m, sybils, p, nxt, failed,
      Costs(Service(c, m), Service(c, m) + m.latency + Charged(c, m, failed),
            Sent(sybils, p, nxt, EffectiveLoss(c, sybils, m, nxt)).lossRisk))
  {
    ServiceTimes(c, m);
    hide Service;
    var x := m.latency + Service(c, m);
    assert (1 + failed) as real * x == x + failed as real * x;
  }

  lemma ServiceTimes(c: Config, m: LinkMetrics)
    ensures Service(c, m) * (if m.bandwidth > 0.05 then m.bandwidth else 0.05) == c.serviceTime
  {
  }

  // ---- runs of the shortest-path solver without churn -----------------------------------

  /** Every packet walks down the distance to its destination, and no packet is dropped for want of a route. */
  ghost predicate Routed(links: Adjacency, s: State) {
    && (forall id :: 0 <= id < |s.packets| && id < |s.trails| ==> Downhill(links, s.packets[id].dst, s.trails[id].walk))
    && (forall i :: 0 <= i < |s.reasons| ==> s.reasons[i] in {TtlExpired, LinkLoss, SybilDrop})
    && (forall i ::
          0 <= i < |s.reasons| && i < |s.dropped| && s.reasons[i] == TtlExpired && s.dropped[i] < |s.packets| ==>
          OutOfHops(s.packets[s.dropped[i]]))
  }

  predicate OutOfHops(p: Packet) {
    p.ttl <= 0 && p.node != p.dst
  }

  ghost predicate Downhill(links: Adjacency, dst: NodeId, walk: seq<NodeId>) {
    exists d: nat :: Descending(links, {}, walk, dst, d)
  }

  lemma NeverRevisits(links: Adjacency, sybils: set<NodeId>, p: Packet, t: Trail)
    requires Downhill(links, p.dst, t.walk) && SimpleWalk(links, p, t.walk) && Travelling(sybils, p, t)
    ensures p.node !in p.visited
  {
    var d: nat :| Descending(links, {}, t.walk, p.dst, d);
    forall i | 0 <= i < p.hops ensures t.walk[i] != p.node {
      NoRepeat(links, {}, t.walk, p.dst, d, i, p.hops);
    }
  }

  /** On a connected graph the shortest-path router has an answer, and it keeps the packet going down. */
  lemma KeepsDescending(links: Adjacency, p: Packet, walk: seq<NodeId>, next: Option<NodeId>)
    requires Downhill(links, p.dst, walk) && SimpleWalk(links, p, walk) && p.dst in links && Connected(links)
    requires Undirected(links)
    requires ShortestAnswer(links, {}, p.node, p.dst, next)
    ensures next.Some? && next.value in Neighbors(links, p.node) && Downhill(links, p.dst, walk + [next.value])
  {
    WalkNodes(links, walk, p.hops);
    assert Joined(links, {}, p.node, p.dst);
    var d: nat :| Descending(links, {}, walk, p.dst, d);
    var e: nat :| IsFirstHop(links, {}, p.node, p.dst, e, next.value);
    StepNearer(links, {}, walk, p.dst, d, e, next.value);
  }

  lemma DropRouted(links: Adjacency, s: State, p: Packet, reason: Reason, ahead: Outlook)
    requires Conserved(s) && s.current.Some? && Routed(links, s) && SamePlace(s.packets[s.current.value], p)
    requires reason in {TtlExpired, LinkLoss, SybilDrop} && (reason == TtlExpired ==> OutOfHops(p))
    ensures Routed(links, Dropped(s, p, reason, ahead))
  {
  }

  lemma DecisionRouted(c: Config, links: Adjacency, adj: Adjacency, sybils: set<NodeId>, s: State, next: Option<NodeId>,
      failed: nat)
    requires Conserved(s) && s.current.Some? && Routed(links, s)
    requires next.Some? && next.value in Neighbors(adj, s.packets[s.current.value].node)
    requires Downhill(links, s.packets[s.current.value].dst, s.trails[s.current.value].walk + [next.value])
    ensures Routed(links, DecisionStep(c, adj, {}, sybils, s, next, failed))
  {
    hide Downhill, Routed, ForwardStep, Dropped, EffectiveLoss;
    var p, nxt := Asked(s.packets[s.current.value]), next.value;
    var m, ahead := adj[p.node][nxt], Ahead(adj, {}, p);
    DropRouted(links, s, Sent(sybils, p, nxt, EffectiveLoss(c, sybils, m, nxt)),
      if nxt in sybils then SybilDrop else LinkLoss, ahead);
    ForwardRouted(c, links, sybils, s, nxt, m, failed, ahead);
  }

  lemma ForwardRouted(c: Config, links: Adjacency, sybils: set<NodeId>, s: State, nxt: NodeId, m: LinkMetrics,
      failed: nat, ahead: Outlook)
    requires Conserved(s) && s.current.Some? && Routed(links, s)
    requires Downhill(links, s.packets[s.current.value].dst, s.trails[s.current.value].walk + [nxt])
    ensures Routed(links, ForwardStep(c, sybils, s, nxt, m, failed, ahead))
  {
    hide Downhill, Granted, Charged;
  }

  /** The answer takes the packet on, so the only drop before the link is for want of TTL. */
  lemma RoutedAhead(c: Config, links: Adjacency, adj: Adjacency, sybils: set<NodeId>, s: State, next: Option<NodeId>)
    requires Inv(c, links, sybils, s) && s.current.Some? && SameLinks(adj, links) && Undirected(links)
    requires Connected(links)
    requires Routed(links, s)
    requires var p := s.packets[s.current.value]; p.node != p.dst && ShortestAnswer(adj, {}, p.node, p.dst, next)
    ensures var p := s.packets[s.current.value];
      p.node !in p.visited && next.Some? && next.value in Neighbors(adj, p.node)
    ensures Downhill(links, s.packets[s.current.value].dst, s.trails[s.current.value].walk + [next.value])
  {
    InvCurrent(c, links, sybils, s);
    RoutedAt(links, s, s.current.value);
    hide Inv, Routed, Downhill;
    var p, t := s.packets[s.current.value], s.trails[s.current.value];
    NeverRevisits(links, sybils, p, t);
    hide Travelling, ShortestAnswer;
    SameAnswer(adj, links, {}, p.node, p.dst, next);
    KeepsDescending(links, p, t.walk, next);
    SameNeighbors(adj, links, p.node);
  }

  lemma ArriveRouted(c: Config, links: Adjacency, adj: Adjacency, sybils: set<NodeId>, s: State, next: Option<NodeId>,
      failed: nat)
    requires Inv(c, links, sybils, s) && s.current.Some? && SameLinks(adj, links) && Undirected(links)
    requires Connected(links)
    requires Routed(links, s)
    requires var p := s.packets[s.current.value]; p.node != p.dst ==> ShortestAnswer(adj, {}, p.node, p.dst, next)
    ensures Routed(links, ArriveStep(c, adj, {}, sybils, s, next, failed))
  {
    InvConserved(c, links, sybils, s);
    hide Inv, Downhill, Dropped, DecisionStep, ShortestAnswer;
    var p := s.packets[s.current.value];
    if p.node != p.dst {
      RoutedAhead(c, links, adj, sybils, s, next);
      hide Routed, SameLinks;
      if p.ttl <= 0 {
        DropRouted(links, s, p, TtlExpired, s.trails[s.current.value].ahead);
      } else {
        DecisionRouted(c, links, adj, sybils, s, next, failed);
      }
    }
  }

  lemma SameNeighbors(a: Adjacency, b: Adjacency, n: NodeId)
    requires SameLinks(a, b)
    ensures Neighbors(a, n) == Neighbors(b, n)
  {
  }

  lemma RoutedAt(links: Adjacency, s: State, id: nat)
    requires Routed(links, s) && id < |s.packets| == |s.trails|
    ensures Downhill(links, s.packets[id].dst, s.trails[id].walk)
  {
  }

  lemma NodeKnown(c: Config, links: Adjacency, sybils: set<NodeId>, s: State)
    requires Inv(c, links, sybils, s) && s.current.Some? && Undirected(links)
    ensures s.current.value < |s.packets| && s.packets[s.current.value].node in links
  {
    hide Inv, Travelling;
    InvCurrent(c, links, sybils, s);
    WalkNodes(links, s.trails[s.current.value].walk, s.packets[s.current.value].hops);
  }

  lemma SameNodes(a: Adjacency, b: Adjacency, n: NodeId)
    requires SameLinks(a, b)
    ensures n in a <==> n in b
  {
  }

  lemma InvConserved(c: Config, links: Adjacency, sybils: set<NodeId>, s: State)
    requires Inv(c, links, sybils, s)
    ensures Conserved(s)
  {
  }

  /** What a run of the shortest-path solver on a connected graph without churn comes to: no loop,
      no_route or node_down drop; delivered in exactly dist hops; ttl_expired only beyond the TTL. */
  lemma RoutedOutcome(c: Config, links: Adjacency, sybils: set<NodeId>, s: State, id: nat, d: nat)
    requires Inv(c, links, sybils, s) && Routed(links, s) && id < |s.packets|
    requires IsDist(links, {}, s.packets[id].src, s.packets[id].dst, d)
    ensures id in s.delivered ==> s.packets[id].hops == d
    ensures forall i :: 0 <= i < |s.dropped| && s.dropped[i] == id ==> s.reasons[i] in {TtlExpired, LinkLoss, SybilDrop}
    ensures forall i :: 0 <= i < |s.dropped| && s.dropped[i] == id && s.reasons[i] == TtlExpired ==> d > c.ttl
  {
    hide HeapMatches, QueuesOk, Travelling;
    assert PacketOk(c, links, sybils, s, id);
    var p, walk := s.packets[id], s.trails[id].walk;
    assert Downhill(links, p.dst, walk) by { RoutedAt(links, s, id); }
    var d': nat :| Descending(links, {}, walk, p.dst, d');
    assert IsDist(links, {}, walk[0], p.dst, d' - 0) && IsDist(links, {}, walk[p.hops], p.dst, d' - p.hops);
    DistUnique(links, {}, p.src, p.dst, d, d');
    if p.node == p.dst {
      StayPut(links, {}, p.dst);
      DistUnique(links, {}, p.dst, p.dst, 0, d' - p.hops);
    } else {
      NoHops(links, p.node, p.dst);
    }
  }

  // ---- runs in which no link fails --------------------------------------------------------

  /** No packet was lost on a link. */
  ghost predicate NothingLost(s: State) {
    forall i :: 0 <= i < |s.reasons| ==> s.reasons[i] != LinkLoss && s.reasons[i] != SybilDrop
  }

  lemma ArriveLossless(c: Config, adj: Adjacency, off: set<NodeId>, sybils: set<NodeId>, s: State, next: Option<NodeId>,
      failed: nat)
    requires s.current.Some? && s.current.value < |s.packets| == |s.trails| && NothingLost(s)
    requires Transmits(adj, off, s.packets[s.current.value], next) ==> failed <= c.retries
    ensures NothingLost(ArriveStep(c, adj, off, sybils, s, next, failed))
  {
    hide ArriveStep, GoesOn, Priced, DropsFor, Transmits;
    var id, p, s' := s.current.value, s.packets[s.current.value], ArriveStep(c, adj, off, sybils, s, next, failed);
    ArriveVerdict(c, adj, off, sybils, s, next, failed);
    NotForLoss(c, adj, off, sybils, p, next, failed);
    if p.node != p.dst {
      if Transmits(adj, off, p, next) && failed <= c.retries {
        OnwardReasons(c, adj, off, sybils, s, next, failed);
      } else {
        var reason :| DropsFor(c, adj, off, sybils, p, next, failed, reason);
        assert GivenUp(s, id, reason, s');
      }
    }
  }

  lemma OnwardReasons(c: Config, adj: Adjacency, off: set<NodeId>, sybils: set<NodeId>, s: State, next: Option<NodeId>,
      failed: nat)
    requires s.current.Some? && s.current.value < |s.packets| == |s.trails| && failed <= c.retries
    requires Transmits(adj, off, s.packets[s.current.value], next)
    ensures ArriveStep(c, adj, off, sybils, s, next, failed).reasons == s.reasons
  {
    hide ArriveStep, Priced;
    ArriveGoes(c, adj, off, sybils, s, next, failed);
  }

  lemma NotForLoss(c: Config, adj: Adjacency, off: set<NodeId>, sybils: set<NodeId>, p: Packet, next: Option<NodeId>,
      failed: nat)
    requires Transmits(adj, off, p, next) ==> failed <= c.retries
    ensures !DropsFor(c, adj, off, sybils, p, next, failed, LinkLoss)
    ensures !DropsFor(c, adj, off, sybils, p, next, failed, SybilDrop)
  {
  }

  /** Every packet whose destination is within its TTL has arrived, over a shortest path, unless its arrival is
      still to come or was lost at the end of a run. */
  ghost predicate AllArrived(c: Config, links: Adjacency, s: State) {
    forall id: nat, d: nat ::
      id < |s.packets| && IsDist(links, {}, s.packets[id].src, s.packets[id].dst, d) && d <= c.ttl ==>
        (id in s.delivered && s.packets[id].hops == d) || id in s.due || id in s.lost
  }

  /** Without churn and without a failing link the shortest-path router delivers everything within the TTL. */
  lemma AllArrive(c: Config, links: Adjacency, sybils: set<NodeId>, s: State)
    requires Inv(c, links, sybils, s) && s.current == None && Routed(links, s) && NothingLost(s)
    ensures AllArrived(c, links, s)
  {
    InvConserved(c, links, sybils, s);
    hide Inv, Routed;
    forall id: nat, d: nat |
      id < |s.packets| && IsDist(links, {}, s.packets[id].src, s.packets[id].dst, d) && d <= c.ttl
      && id !in s.due && id !in s.lost
      ensures id in s.delivered && s.packets[id].hops == d
    {
      RoutedOutcome(c, links, sybils, s, id, d);
      assert forall i :: 0 <= i < |s.dropped| ==> s.dropped[i] != id;
    }
  }

  lemma NoHops(links: Adjacency, a: NodeId, b: NodeId)
    ensures IsDist(links, {}, a, b, 0) ==> a == b
  {
  }

  // ---- runs of solvers that prefer unvisited live neighbours ------------------------------

  /** A packet that is back at a visited node, or was dropped for a loop, had only visited neighbours left
      when its last next hop was chosen; one that was dropped for want of a route had none at all. */
  ghost predicate Wary(s: State) {
    && (forall id :: 0 <= id < |s.packets| && id < |s.trails| && id !in s.dropped ==>
          s.packets[id].node in s.packets[id].visited ==>
          s.trails[id].ahead != Open)
    && (forall i :: 0 <= i < |s.reasons| && i < |s.dropped| && s.dropped[i] < |s.trails| ==>
          WaryDrop(s.reasons[i], s.trails[s.dropped[i]].ahead))
  }

  predicate WaryDrop(reason: Reason, ahead: Outlook) {
    (reason == Loop ==> ahead != Open) && (reason == NoRoute ==> ahead == Stranded)
  }

  /** A packet on its way has not been at its destination. */
  lemma DstUnvisited(c: Config, links: Adjacency, sybils: set<NodeId>, s: State)
    requires Inv(c, links, sybils, s) && s.current.Some?
    ensures var p := s.packets[s.current.value]; p.node != p.dst ==> p.dst !in Asked(p).visited
  {
    InvCurrent(c, links, sybils, s);
    hide Inv;
  }

  lemma DropWary(s: State, p: Packet, reason: Reason, ahead: Outlook)
    requires Conserved(s) && s.current.Some? && Wary(s) && WaryDrop(reason, ahead)
    ensures Wary(Dropped(s, p, reason, ahead))
  {
  }

  lemma ForwardWary(c: Config, sybils: set<NodeId>, s: State, nxt: NodeId, m: LinkMetrics, failed: nat, ahead: Outlook)
    requires Conserved(s) && s.current.Some? && Wary(s)
    requires nxt in Asked(s.packets[s.current.value]).visited ==> ahead != Open
    ensures Wary(ForwardStep(c, sybils, s, nxt, m, failed, ahead))
  {
  }

  lemma ArriveWary(c: Config, adj: Adjacency, off: set<NodeId>, sybils: set<NodeId>, s: State, next: Option<NodeId>,
      failed: nat)
    requires Conserved(s) && s.current.Some? && Wary(s)
    requires var p := s.packets[s.current.value]; p.node != p.dst ==> CarefulAnswer(adj, off, Asked(p), next)
    ensures Wary(ArriveStep(c, adj, off, sybils, s, next, failed))
  {
    var p, t := s.packets[s.current.value], s.trails[s.current.value];
    var q := Asked(p);
    hide ForwardStep, Dropped, EffectiveLoss;
    if p.node != p.dst {
      assert p.node in p.visited ==> t.ahead != Open;
      hide Conserved, Wary;
      if p.node in off {
        DropWary(s, p, NodeDown, t.ahead);
      } else if p.ttl <= 0 {
        DropWary(s, p, TtlExpired, t.ahead);
      } else if p.node in p.visited {
        DropWary(s, p, Loop, t.ahead);
      } else if next.None? {
        DropWary(s, q, NoRoute, Ahead(adj, off, q));
      } else {
        var nxt := next.value;
        var m := adj[p.node][nxt];
        if failed > c.retries {
          DropWary(s, Sent(sybils, q, nxt, EffectiveLoss(c, sybils, m, nxt)),
            if nxt in sybils then SybilDrop else LinkLoss, Ahead(adj, off, q));
        } else {
          ForwardWary(c, sybils, s, nxt, m, failed, Ahead(adj, off, q));
        }
      }
    }
  }

  // ---- progress --------------------------------------------------------------------------

  /** Hops the packets still due can take, and one arrival more each. */
  function Load(s: State, n: nat): nat
    requires n <= |s.packets|
  {
    if n == 0 then 0 else Load(s, n - 1) + Weight(s, n - 1)
  }

  function Weight(s: State, id: nat): nat
    requires id < |s.packets|
  {
    if id !in s.due then 0 else if s.packets[id].ttl > 0 then s.packets[id].ttl + 1 else 1
  }

  lemma {:induction false} LoadChange(s: State, s': State, id: nat, n: nat)
    requires id < |s.packets| == |s'.packets| && n <= |s.packets|
    requires forall i: nat :: i < |s.packets| && i != id ==> Weight(s', i) == Weight(s, i)
    ensures Load(s', n) == Load(s, n) + if id < n then Weight(s', id) - Weight(s, id) else 0
  {
    if n > 0 {
      LoadChange(s, s', id, n - 1);
    }
  }

  /** Entries are only added in the future, behind those already there. */
  ghost predicate Grown(s: State, s': State) {
    && s'.now == s.now && s'.timely == s.timely && s'.counter >= s.counter && |s'.packets| >= |s.packets|
    && forall e :: e in s'.events ==> e in s.events || e.seqNo >= s.counter
  }

  lemma DecisionGrows(c: Config, adj: Adjacency, off: set<NodeId>, sybils: set<NodeId>, s: State, next: Option<NodeId>,
      failed: nat)
    requires s.current.Some? && s.current.value < |s.packets| == |s.trails|
    ensures Grown(s, DecisionStep(c, adj, off, sybils, s, next, failed))
    ensures forall e :: e in DecisionStep(c, adj, off, sybils, s, next, failed).events ==>
      e in s.events || e.kind.Arrive?
  {
  }

  lemma ArriveGrows(c: Config, adj: Adjacency, off: set<NodeId>, sybils: set<NodeId>, s: State, next: Option<NodeId>,
      failed: nat)
    requires s.current.Some? && s.current.value < |s.packets| == |s.trails|
    ensures Grown(s, ArriveStep(c, adj, off, sybils, s, next, failed))
    ensures forall e :: e in ArriveStep(c, adj, off, sybils, s, next, failed).events ==> e in s.events || e.kind.Arrive?
  {
    hide DecisionStep;
    DecisionGrows(c, adj, off, sybils, s, next, failed);
  }

  /** The current packet is left with fewer hops than it had, or none; the others keep theirs. */
  ghost predicate Lighter(s: State, s': State)
    requires s.current.Some? && s.current.value < |s.packets|
  {
    var id := s.current.value;
    && |s'.packets| == |s.packets|
    && (forall i: nat :: i < |s.packets| && i != id ==> Weight(s', i) == Weight(s, i))
    && Weight(s', id) <= if s.packets[id].ttl > 0 then s.packets[id].ttl else 0
  }

  lemma DecisionLighter(c: Config, adj: Adjacency, off: set<NodeId>, sybils: set<NodeId>, s: State,
      next: Option<NodeId>, failed: nat)
    requires s.current.Some? && s.current.value < |s.packets| == |s.trails| && s.current.value !in s.due
    requires s.packets[s.current.value].ttl > 0
    ensures Lighter(s, DecisionStep(c, adj, off, sybils, s, next, failed))
  {
  }

  lemma ArriveLighter(c: Config, adj: Adjacency, off: set<NodeId>, sybils: set<NodeId>, s: State, next: Option<NodeId>,
      failed: nat)
    requires s.current.Some? && s.current.value < |s.packets| == |s.trails| && s.current.value !in s.due
    ensures Lighter(s, ArriveStep(c, adj, off, sybils, s, next, failed))
  {
    hide DecisionStep, Lighter, Dropped, Delivered;
    var p, ahead := s.packets[s.current.value], s.trails[s.current.value].ahead;
    forall reason ensures Lighter(s, Dropped(s, p, reason, ahead)) { DoneLighter(s, p, reason, ahead); }
    DoneLighter(s, p, Loop, ahead);
    if p.ttl > 0 {
      DecisionLighter(c, adj, off, sybils, s, next, failed);
    }
  }

  lemma DoneLighter(s: State, p: Packet, reason: Reason, ahead: Outlook)
    requires s.current.Some? && s.current.value < |s.packets| == |s.trails| && s.current.value !in s.due
    ensures Lighter(s, Dropped(s, p, reason, ahead)) && Lighter(s, Delivered(s))
  {
  }

  /** Handling an arrival uses up one of the arrivals the packet had left. */
  lemma ArriveLoad(c: Config, adj: Adjacency, off: set<NodeId>, sybils: set<NodeId>, s: State, e: Event,
      next: Option<NodeId>, failed: nat)
    requires e.kind.Arrive? && e.kind.id in s.due && e.kind.id < |s.packets| == |s.trails|
    ensures var s' := ArriveStep(c, adj, off, sybils, Popped(s, e), next, failed);
      |s'.packets| == |s.packets| && Load(s', |s.packets|) < Load(s, |s.packets|)
  {
    hide ArriveStep;
    ArriveLighter(c, adj, off, sybils, Popped(s, e), next, failed);
    LoadChange(s, ArriveStep(c, adj, off, sybils, Popped(s, e), next, failed), e.kind.id, |s.packets|);
  }

  lemma PoppedRouted(links: Adjacency, s: State, e: Event)
    requires Conserved(s) && HeapMatches(s) && e in s.events && Routed(links, s)
    ensures Routed(links, Popped(s, e))
  {
  }

  lemma PoppedWary(s: State, e: Event)
    requires Conserved(s) && HeapMatches(s) && e in s.events && Wary(s)
    ensures Wary(Popped(s, e))
  {
  }

  // ---- generation -----------------------------------------------------------------------------

  function Created(c: Config, sybils: set<NodeId>, s: State, src: NodeId, dst: NodeId): Packet {
    NewPacket(|s.packets|, src, dst, s.now, c.ttl).(touchedSybil := src in sybils)
  }

  function GenerateStep(c: Config, sybils: set<NodeId>, s: State, src: NodeId, dst: NodeId, again: Option<real>): State
  {
    var s' := Spawned(s, Created(c, sybils, s, src, dst));
    if again.Some? then Scheduled(s', again.value, Generate) else s'
  }

  lemma GenerateKeeps(c: Config, links: Adjacency, sybils: set<NodeId>, s: State, src: NodeId, dst: NodeId,
      again: Option<real>)
    requires Inv(c, links, sybils, s) && s.current == None && src in links && dst in links && src != dst
    requires again.Some? && s.timely ==> again.value >= s.now
    requires forall e :: e in s.events ==> !e.kind.Generate?
    ensures Inv(c, links, sybils, GenerateStep(c, sybils, s, src, dst, again))
    ensures GenerateStep(c, sybils, s, src, dst, again).current == None
  {
    hide Inv;
    var p := Created(c, sybils, s, src, dst);
    SpawnedKeeps(c, links, sybils, s, p);
    if again.Some? {
      ScheduledKeeps(c, links, sybils, Spawned(s, p), again.value, Generate);
    }
  }

  lemma StartsDownhill(links: Adjacency, src: NodeId, dst: NodeId)
    requires Connected(links) && src in links && dst in links
    ensures Downhill(links, dst, [src])
  {
    assert Joined(links, {}, src, dst);
    var n: nat :| Reaches(links, {}, src, dst, n);
    var d := DistExists(links, {}, src, dst, n);
    assert Descending(links, {}, [src], dst, d);
  }

  lemma GenerateRouted(c: Config, links: Adjacency, sybils: set<NodeId>, s: State, src: NodeId, dst: NodeId,
      again: Option<real>)
    requires Conserved(s) && Routed(links, s) && Connected(links) && src in links && dst in links
    ensures Routed(links, GenerateStep(c, sybils, s, src, dst, again))
  {
    hide Downhill;
    StartsDownhill(links, src, dst);
    assert forall i :: 0 <= i < |s.dropped| ==> s.dropped[i] in s.dropped;
  }

  lemma GenerateWary(c: Config, sybils: set<NodeId>, s: State, src: NodeId, dst: NodeId, again: Option<real>)
    requires Conserved(s) && Wary(s)
    ensures Wary(GenerateStep(c, sybils, s, src, dst, again))
  {
    assert forall i :: 0 <= i < |s.dropped| ==> s.dropped[i] in s.dropped;
  }
}
