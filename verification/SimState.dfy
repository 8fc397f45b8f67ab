/** State and invariants of the discrete-event simulator (aegis_router/event_sim.py): packets, the
    event heap, link queues, and the history a run leaves behind. */
module SimState {
  import opened Network
  import opened HopDistance
  import opened Packets
  import opened Sequences

  datatype Kind = Generate | Arrive(id: nat) | Perturb

  /** Heap entry: time, insertion counter, payload. */
  datatype Event = Event(time: real, seqNo: nat, kind: Kind)

  datatype Config = Config(ttl: int, serviceTime: real, sybilExtraDrop: real, congestionRate: real,
      congestionJitter: real, churnRate: real, churnRecovery: real, perturbInterval: real, retries: nat)

  /** Everything a run draws from outside: random numbers, sampled endpoints and links, inter-arrival
      gaps, and the answers of the routing solver, which may depend on all it has learned so far. */
  datatype Oracle = Oracle(random: nat -> real, pairs: nat -> (NodeId, NodeId), links: nat -> seq<(NodeId, NodeId)>,
      drift: nat -> LinkMetrics, gaps: nat -> real, decide: (nat, Adjacency, set<NodeId>, Packet) -> Option<NodeId>)

  /** One granted transmission on a directed link. */
  datatype Grant = Grant(link: (NodeId, NodeId), arrived: real, start: real, end: real)

  /** The live neighbours a packet had when its next hop was chosen: some unvisited, only visited ones, or none. */
  datatype Outlook = Open | Cornered | Stranded

  /** History of one packet: the nodes it was at, the latency charged for failed tries only, how many
      arrivals were handled, and the outlook when its last next hop was chosen. */
  datatype Trail = Trail(walk: seq<NodeId>, penalty: real, arrivals: nat, ahead: Outlook)

  /** Everything about the runs so far. They are timely if no link and no service takes negative time; the
      packets in `lost` wait for an arrival that was taken off the heap past the end of a run; the first
      `base` grants are from earlier runs. */
  datatype State = State(timely: bool, now: real, events: set<Event>, counter: nat, packets: seq<Packet>,
      trails: seq<Trail>, due: map<nat, real>, lost: set<nat>, current: Option<nat>, delivered: seq<nat>,
      dropped: seq<nat>, reasons: seq<Reason>, available: map<(NodeId, NodeId), real>, grants: seq<Grant>, base: nat)

  /** Before the first run. */
  function NewState(timely: bool): State {
    State(timely, 0.0, {}, 0, [], [], map[], {}, None, [], [], [], map[], [], 0)
  }

  // ---- conservation -------------------------------------------------------------

  /** Every packet has exactly one pending arrival, or has lost it, or is the one being handled, or has
      exactly one terminal record. */
  ghost predicate Conserved(s: State) {
    && |s.trails| == |s.packets| && |s.reasons| == |s.dropped|
    && Distinct(s.delivered) && Distinct(s.dropped) && (forall id :: id in s.delivered ==> id !in s.dropped)
    && (forall id ::
          id in s.due <==>
          0 <= id < |s.packets| && id !in s.lost && s.current != Some(id) && id !in s.delivered && id !in s.dropped)
    && (forall id :: id in s.lost ==>
          id < |s.packets| && s.current != Some(id) && id !in s.delivered && id !in s.dropped)
    && (forall id :: id in s.delivered || id in s.dropped ==> 0 <= id < |s.packets|)
    && (s.current.Some? ==>
          s.current.value < |s.packets| && s.current.value !in s.delivered && s.current.value !in s.dropped)
  }

  /** The heap holds exactly one arrival for each due packet, at most one generation, and counters that
      tell entries apart; in a timely run nothing lies in the past. */
  ghost predicate HeapMatches(s: State) {
    HeapOk(s.events, s.counter, s.due) && (s.timely ==> forall e :: e in s.events ==> e.time >= s.now)
  }

  ghost predicate HeapOk(events: set<Event>, counter: nat, due: map<nat, real>) {
    && (forall e :: e in events ==> e.seqNo < counter)
    && (forall e, f :: e in events && f in events && (e.seqNo == f.seqNo || (e.kind == f.kind && !e.kind.Perturb?)) ==>
          e == f)
    && (forall e :: e in events && e.kind.Arrive? ==> e.kind.id in due && due[e.kind.id] == e.time)
    && (forall id :: id in due ==> exists e :: e in events && e.kind == Arrive(id))
  }

  // ---- what a packet looks like -----------------------------------------------------

  /** The node sequence is a walk along links from src to the current node; the nodes left so far are
      distinct and none of them is dst. */
  ghost predicate SimpleWalk(adj: Adjacency, p: Packet, walk: seq<NodeId>) {
    && |walk| == p.hops + 1 && walk[0] == p.src && walk[p.hops] == p.node
    && IsPath(adj, {}, walk) && p.src in adj
    && Distinct(walk[..p.hops]) && p.dst !in walk[..p.hops]
  }

  /** Holds of every packet at all times: hops and TTL add up, and each arrival handled was a hop. */
  ghost predicate Shape(c: Config, adj: Adjacency, id: nat, p: Packet, t: Trail, waiting: bool) {
    && p.id == id && SimpleWalk(adj, p, t.walk) && p.dst in adj && p.dst != p.src
    && p.hops + p.ttl == c.ttl && (p.hops > 0 ==> p.ttl >= 0)
    && t.arrivals == p.hops + if waiting then 0 else 1
  }

  /** Holds until the packet is dropped: it has visited exactly the nodes it has left, and its exposure
      flags say whether a Sybil node is on its walk, and whether one was a relay. */
  ghost predicate Travelling(sybils: set<NodeId>, p: Packet, t: Trail)
    requires p.hops <= |t.walk|
  {
    && p.visited == Elements(t.walk[..p.hops])
    && (p.touchedSybil <==> exists i :: 0 <= i < |t.walk| && t.walk[i] in sybils)
    && (p.touchedTransit <==> exists i :: 0 < i < |t.walk| && t.walk[i] in sybils && t.walk[i] != p.dst)
  }

  /** Clock of a packet: creation plus latency, less what failed tries were charged. */
  function Clock(p: Packet, t: Trail): real {
    p.createdAt + p.latency - t.penalty
  }

  ghost predicate PacketOk(c: Config, adj: Adjacency, sybils: set<NodeId>, s: State, id: nat)
    requires id < |s.packets| == |s.trails|
  {
    var p, t := s.packets[id], s.trails[id];
    && Shape(c, adj, id, p, t, id in s.due || id in s.lost)
    && (id !in s.dropped ==> Travelling(sybils, p, t))
    && (id in s.due ==> s.due[id] == Clock(p, t))
    && (s.current == Some(id) ==> s.now == Clock(p, t))
    && (id in s.delivered ==> p.node == p.dst) && (id in s.dropped ==> p.node != p.dst)
  }

  // ---- why packets are dropped ----------------------------------------------------------

  /** What a drop reason says about the packet as it was left. */
  predicate Fits(sybils: set<NodeId>, reason: Reason, p: Packet) {
    match reason
    case TtlExpired => p.ttl <= 0
    case Loop => p.ttl > 0 && p.node in p.visited
    case LinkLoss => p.ttl > 0 && p.lastFrom == Some(p.node) && p.lastNeighbor.Some? && p.lastNeighbor.value !in sybils
    case SybilDrop => p.ttl > 0 && p.lastFrom == Some(p.node) && p.lastNeighbor.Some? && p.lastNeighbor.value in sybils
    case NoRoute => p.ttl > 0
    case NodeDown => true
    case BadSignature => false
  }

  ghost predicate DropsFit(sybils: set<NodeId>, s: State) {
    forall i :: 0 <= i < |s.dropped| && i < |s.reasons| && s.dropped[i] < |s.packets| ==>
      Fits(sybils, s.reasons[i], s.packets[s.dropped[i]])
  }

  // ---- link queues ----------------------------------------------------------------------

  /** When the last grant on a link ends. */
  function LastEnd(grants: seq<Grant>, link: (NodeId, NodeId)): Option<real> {
    if |grants| == 0 then None
    else if grants[|grants| - 1].link == link then Some(grants[|grants| - 1].end)
    else LastEnd(grants[..|grants| - 1], link)
  }

  function Later(x: real, y: Option<real>): real {
    if y.Some? && y.value > x then y.value else x
  }

  /** A frame starts at once on a free link, and otherwise exactly when its predecessor ends. */
  ghost predicate WorkConserving(grants: seq<Grant>) {
    forall i :: 0 <= i < |grants| ==> grants[i].start == Later(grants[i].arrived, LastEnd(grants[..i], grants[i].link))
  }

  /** No service ends before it starts. */
  ghost predicate Lasting(grants: seq<Grant>) {
    forall i :: 0 <= i < |grants| ==> grants[i].start <= grants[i].end
  }

  /** The frames of one run come in order of time. */
  ghost predicate OnTime(grants: seq<Grant>, base: nat, now: real) {
    && (forall i :: base <= i < |grants| ==> grants[i].arrived <= now)
    && forall i, j :: base <= i < j < |grants| ==> grants[i].arrived <= grants[j].arrived
  }

  ghost predicate QueuesOk(s: State) {
    && s.base <= |s.grants| && WorkConserving(s.grants)
    && (forall link :: LastEnd(s.grants, link) == if link in s.available then Some(s.available[link]) else None)
    && (s.timely ==> Lasting(s.grants) && OnTime(s.grants, s.base, s.now))
  }

  lemma {:induction false} EndsGrow(grants: seq<Grant>, i: nat)
    requires WorkConserving(grants) && Lasting(grants) && i < |grants|
    ensures LastEnd(grants, grants[i].link).Some? && LastEnd(grants, grants[i].link).value >= grants[i].end
  {
    var init, z := grants[..|grants| - 1], grants[|grants| - 1];
    if i < |grants| - 1 {
      assert forall k :: 0 <= k < |init| ==> init[..k] == grants[..k];
      EndsGrow(init, i);
      assert grants[..|grants| - 1] == init;
    }
  }

  /** Service intervals on one directed link are disjoint, in the order they were granted. */
  lemma Disjoint(grants: seq<Grant>, i: nat, j: nat)
    requires WorkConserving(grants) && Lasting(grants) && i < j < |grants| && grants[i].link == grants[j].link
    ensures grants[i].end <= grants[j].start
  {
    var before := grants[..j];
    assert forall k :: 0 <= k < j ==> before[..k] == grants[..k];
    EndsGrow(before, i);
  }

  // ---- the whole invariant ------------------------------------------------------------------

  ghost predicate Inv(c: Config, adj: Adjacency, sybils: set<NodeId>, s: State) {
    && Conserved(s) && HeapMatches(s) && QueuesOk(s) && DropsFit(sybils, s)
    && forall id :: 0 <= id < |s.packets| ==> PacketOk(c, adj, sybils, s, id)
  }

  /** A delivered packet took at most TTL hops, and fewer than there are nodes. */
  lemma HopsBound(c: Config, adj: Adjacency, sybils: set<NodeId>, s: State, id: nat)
    requires Inv(c, adj, sybils, s) && Undirected(adj) && id < |s.packets| && c.ttl >= 0
    ensures s.packets[id].hops <= c.ttl && s.packets[id].hops <= |adj| - 1
    ensures s.trails[id].arrivals <= c.ttl + 1
    ensures id !in s.dropped ==> |s.packets[id].visited| == s.packets[id].hops
  {
    assert PacketOk(c, adj, sybils, s, id);
    var p, walk := s.packets[id], s.trails[id].walk;
    RelayBound(adj, walk, walk[..p.hops], p.dst);
    DistinctSize(walk[..p.hops]);
  }

  // ---- the steps of a run ----------------------------------------------------------------------

  /** Take the least entry off the heap; an arrival makes its packet the current one. */
  function Popped(s: State, e: Event): State {
    var s' := s.(now := e.time, events := s.events - {e});
    if e.kind.Arrive? && e.kind.id < |s.trails| then
      s'.(current := Some(e.kind.id), due := s.due - {e.kind.id},
          trails := s.trails[e.kind.id := s.trails[e.kind.id].(arrivals := s.trails[e.kind.id].arrivals + 1)])
    else s'
  }

  /** Take an entry off the heap without handling it; if it is an arrival, its packet has lost it. */
  function Discarded(s: State, e: Event): State {
    var s' := s.(events := s.events - {e});
    if e.kind.Arrive? then s'.(due := s.due - {e.kind.id}, lost := s.lost + {e.kind.id}) else s'
  }

  /** The clock starts anew; whatever is pending stays pending. */
  function Begun(s: State): State {
    s.(now := 0.0, base := |s.grants|)
  }

  function Delivered(s: State): State
    requires s.current.Some?
  {
    s.(current := None, delivered := s.delivered + [s.current.value])
  }

  function Dropped(s: State, p: Packet, reason: Reason, ahead: Outlook): State
    requires s.current.Some? && s.current.value < |s.packets| == |s.trails|
  {
    var id := s.current.value;
    s.(current := None, dropped := s.dropped + [id], reasons := s.reasons + [reason],
       packets := s.packets[id := p], trails := s.trails[id := s.trails[id].(ahead := ahead)])
  }

  function Forwarded(s: State, p: Packet, t: Trail, at: real, g: Grant): State
    requires s.current.Some? && s.current.value < |s.packets| == |s.trails|
  {
    var id := s.current.value;
    s.(current := None, packets := s.packets[id := p], trails := s.trails[id := t], due := s.due[id := at],
       events := s.events + {Event(at, s.counter, Arrive(id))}, counter := s.counter + 1,
       available := s.available[g.link := g.end], grants := s.grants + [g])
  }

  function Spawned(s: State, p: Packet): State {
    s.(packets := s.packets + [p], trails := s.trails + [Trail([p.src], 0.0, 0, Open)],
      due := s.due[|s.packets| := s.now],
       events := s.events + {Event(s.now, s.counter, Arrive(|s.packets|))}, counter := s.counter + 1)
  }

  function Scheduled(s: State, at: real, kind: Kind): State {
    s.(events := s.events + {Event(at, s.counter, kind)}, counter := s.counter + 1)
  }

  /** A step that leaves a packet's own records alone leaves it in order. */
  lemma PacketFrame(c: Config, adj: Adjacency, sybils: set<NodeId>, s: State, s': State, id: nat)
    requires id < |s.packets| == |s.trails| && PacketOk(c, adj, sybils, s, id)
    requires id < |s'.packets| == |s'.trails| && s'.packets[id] == s.packets[id] && s'.trails[id] == s.trails[id]
    requires (id in s'.due <==> id in s.due) && (id in s.due ==> s'.due[id] == s.due[id])
    requires (id in s'.dropped <==> id in s.dropped) && (id in s'.delivered <==> id in s.delivered)
    requires id in s'.lost <==> id in s.lost
    requires s'.current == Some(id) ==> s.current == Some(id) && s'.now == s.now
    ensures PacketOk(c, adj, sybils, s', id)
  {
  }

  lemma PoppedKeeps(c: Config, adj: Adjacency, sybils: set<NodeId>, s: State, e: Event)
    requires Inv(c, adj, sybils, s) && s.current == None && e in s.events
    requires forall f :: f in s.events ==> e.time <= f.time
    ensures Inv(c, adj, sybils, Popped(s, e))
    ensures e.kind.Arrive? ==> Popped(s, e).current == Some(e.kind.id)
  {
    if e.kind.Arrive? { DueOf(s, e); }
    PoppedHeap(s, e);
    PoppedConserved(s, e);
    PoppedQueues(s, e);
    hide Conserved, HeapMatches, QueuesOk, PacketOk, Popped;
    forall id | 0 <= id < |s.packets| ensures PacketOk(c, adj, sybils, Popped(s, e), id) {
      PoppedPacket(c, adj, sybils, s, e, id);
    }
  }

  lemma PoppedHeap(s: State, e: Event)
    requires HeapMatches(s) && e in s.events && (forall f :: f in s.events ==> e.time <= f.time)
    requires |s.trails| == |s.packets|
    requires e.kind.Arrive? ==> e.kind.id < |s.trails|
    ensures HeapMatches(Popped(s, e))
  {
  }

  lemma PoppedConserved(s: State, e: Event)
    requires Conserved(s) && HeapMatches(s) && s.current == None && e in s.events
    ensures Conserved(Popped(s, e)) && |Popped(s, e).packets| == |s.packets|
    ensures Popped(s, e).current == if e.kind.Arrive? then Some(e.kind.id) else None
  {
    hide Distinct;
    if e.kind.Arrive? { assert e.kind.id in s.due; }
  }

  lemma PoppedQueues(s: State, e: Event)
    requires QueuesOk(s) && (s.timely ==> e.time >= s.now)
    ensures QueuesOk(Popped(s, e))
  {
    hide WorkConserving, LastEnd;
  }

  lemma PoppedPacket(c: Config, adj: Adjacency, sybils: set<NodeId>, s: State, e: Event, id: nat)
    requires Conserved(s) && HeapMatches(s) && s.current == None && e in s.events && id < |s.packets|
    requires PacketOk(c, adj, sybils, s, id)
    ensures Conserved(Popped(s, e)) ==> PacketOk(c, adj, sybils, Popped(s, e), id)
  {
    hide SimpleWalk, Distinct, HeapMatches;
    if e.kind.Arrive? { DueOf(s, e); }
  }

  lemma DueOf(s: State, e: Event)
    requires HeapMatches(s) && e in s.events && e.kind.Arrive?
    ensures e.kind.id in s.due && s.due[e.kind.id] == e.time
  {
  }

  lemma DiscardedKeeps(c: Config, adj: Adjacency, sybils: set<NodeId>, s: State, e: Event)
    requires Inv(c, adj, sybils, s) && s.current == None && e in s.events
    ensures Inv(c, adj, sybils, Discarded(s, e))
  {
    if e.kind.Arrive? { DueOf(s, e); }
    DiscardedHeap(s, e);
    DiscardedConserved(s, e);
    hide Conserved, HeapMatches, WorkConserving, LastEnd, PacketOk;
    forall id | 0 <= id < |s.packets| ensures PacketOk(c, adj, sybils, Discarded(s, e), id) {
      DiscardedPacket(c, adj, sybils, s, e, id);
    }
  }

  lemma DiscardedHeap(s: State, e: Event)
    requires HeapMatches(s) && e in s.events
    ensures HeapMatches(Discarded(s, e))
  {
  }

  lemma DiscardedConserved(s: State, e: Event)
    requires Conserved(s) && HeapMatches(s) && s.current == None && e in s.events
    ensures Conserved(Discarded(s, e)) && |s.trails| == |s.packets|
  {
    hide Distinct;
    if e.kind.Arrive? { assert e.kind.id in s.due; }
  }

  lemma DiscardedPacket(c: Config, adj: Adjacency, sybils: set<NodeId>, s: State, e: Event, id: nat)
    requires Conserved(s) && HeapMatches(s) && s.current == None && e in s.events && id < |s.packets|
    requires PacketOk(c, adj, sybils, s, id)
    ensures PacketOk(c, adj, sybils, Discarded(s, e), id)
  {
    hide SimpleWalk, Distinct, HeapMatches;
    if e.kind.Arrive? { DueOf(s, e); }
  }

  lemma BegunKeeps(c: Config, adj: Adjacency, sybils: set<NodeId>, s: State)
    requires Inv(c, adj, sybils, s) && s.current == None && (s.timely ==> forall e :: e in s.events ==> e.time >= 0.0)
    ensures Inv(c, adj, sybils, Begun(s))
  {
    hide WorkConserving, LastEnd, SimpleWalk, Distinct;
    forall id | 0 <= id < |s.packets| ensures PacketOk(c, adj, sybils, Begun(s), id) {
      assert PacketOk(c, adj, sybils, s, id);
    }
  }

  lemma DeliveredKeeps(c: Config, adj: Adjacency, sybils: set<NodeId>, s: State)
    requires Inv(c, adj, sybils, s) && s.current.Some?
    requires s.packets[s.current.value].node == s.packets[s.current.value].dst
    ensures Inv(c, adj, sybils, Delivered(s))
  {
    var s' := Delivered(s);
    DistinctSnoc(s.delivered, s.current.value);
    forall id | 0 <= id < |s'.packets| ensures PacketOk(c, adj, sybils, s', id) {
      assert PacketOk(c, adj, sybils, s, id);
    }
  }

  lemma DroppedKeeps(c: Config, adj: Adjacency, sybils: set<NodeId>, s: State, p: Packet, reason: Reason,
      ahead: Outlook)
    requires Inv(c, adj, sybils, s) && s.current.Some? && SamePlace(s.packets[s.current.value], p)
    requires p.node != p.dst && Fits(sybils, reason, p)
    ensures Inv(c, adj, sybils, Dropped(s, p, reason, ahead))
  {
    hide Fits;
    var s' := Dropped(s, p, reason, ahead);
    DistinctSnoc(s.dropped, s.current.value);
    DroppedFits(sybils, s, p, reason, ahead);
    forall id | 0 <= id < |s'.packets| ensures PacketOk(c, adj, sybils, s', id) {
      assert PacketOk(c, adj, sybils, s, id);
    }
  }

  lemma DroppedFits(sybils: set<NodeId>, s: State, p: Packet, reason: Reason, ahead: Outlook)
    requires Conserved(s) && DropsFit(sybils, s) && s.current.Some? && Fits(sybils, reason, p)
    ensures DropsFit(sybils, Dropped(s, p, reason, ahead))
  {
    hide Fits, Distinct;
    assert forall i :: 0 <= i < |s.dropped| ==> s.dropped[i] in s.dropped;
  }

  /** The packet has not moved. */
  predicate SamePlace(p: Packet, q: Packet) {
    q.id == p.id && q.src == p.src && q.dst == p.dst && q.node == p.node && q.hops == p.hops && q.ttl == p.ttl
  }

  lemma ScheduledKeeps(c: Config, adj: Adjacency, sybils: set<NodeId>, s: State, at: real, kind: Kind)
    requires Inv(c, adj, sybils, s) && (s.timely ==> at >= s.now) && !kind.Arrive?
    requires kind.Generate? ==> forall e :: e in s.events ==> !e.kind.Generate?
    ensures Inv(c, adj, sybils, Scheduled(s, at, kind))
  {
    var s' := Scheduled(s, at, kind);
    forall id | id in s'.due ensures exists e :: e in s'.events && e.kind == Arrive(id) {
      var e :| e in s.events && e.kind == Arrive(id);
      assert e in s'.events;
    }
    forall id | 0 <= id < |s'.packets| ensures PacketOk(c, adj, sybils, s', id) {
      assert PacketOk(c, adj, sybils, s, id);
    }
  }

  /** A forwarded packet is one link further, with the bookkeeping of _handle_arrive. */
  ghost predicate Moves(adj: Adjacency, sybils: set<NodeId>, p: Packet, t: Trail, p': Packet, t': Trail, nxt: NodeId) {
    && p.node !in p.visited && p.node != p.dst && p.ttl > 0 && nxt in Neighbors(adj, p.node)
    && p'.id == p.id && p'.src == p.src && p'.dst == p.dst && p'.createdAt == p.createdAt
    && p'.node == nxt && p'.hops == p.hops + 1 && p'.ttl == p.ttl - 1 && p'.visited == p.visited + {p.node}
    && p'.touchedSybil == (p.touchedSybil || nxt in sybils)
    && p'.touchedTransit == (p.touchedTransit || (nxt in sybils && nxt != p.dst))
    && t'.walk == t.walk + [nxt] && t'.arrivals == t.arrivals
  }

  lemma WalkExtends(c: Config, adj: Adjacency, sybils: set<NodeId>, id: nat, p: Packet, t: Trail, p': Packet, t': Trail,
      nxt: NodeId)
    requires Shape(c, adj, id, p, t, false) && Travelling(sybils, p, t) && Moves(adj, sybils, p, t, p', t', nxt)
    ensures Shape(c, adj, id, p', t', true) && Travelling(sybils, p', t')
  {
    var left := t.walk[..p.hops];
    assert t'.walk[..p'.hops] == t.walk && t.walk == left + [p.node];
    DistinctSnoc(left, p.node);
    assert Elements(t.walk) == Elements(left) + {p.node};
    assert forall i :: 0 <= i < |t.walk| ==> t'.walk[i] == t.walk[i];
    assert t'.walk[|t.walk|] == nxt;
  }

  /** The grant takes the next free slot of its link, and in a timely run a slot of some length. */
  ghost predicate NextSlot(s: State, g: Grant) {
    && g.arrived == s.now
    && g.start == Later(g.arrived, if g.link in s.available then Some(s.available[g.link]) else None)
    && (s.timely ==> g.end >= g.start)
  }

  lemma GrantKeepsQueues(s: State, g: Grant)
    requires QueuesOk(s) && NextSlot(s, g)
    ensures WorkConserving(s.grants + [g])
    ensures forall link ::
      (LastEnd(s.grants + [g], link) ==
       if link == g.link then Some(g.end) else if link in s.available then Some(s.available[link]) else None)
  {
    hide OnTime, Lasting;
    var gs := s.grants + [g];
    assert gs[..|s.grants|] == s.grants;
    forall i | 0 <= i < |gs| ensures gs[i].start == Later(gs[i].arrived, LastEnd(gs[..i], gs[i].link)) {
      if i < |s.grants| { assert gs[..i] == s.grants[..i]; }
    }
  }

  lemma ForwardedQueues(s: State, p': Packet, t': Trail, at: real, g: Grant)
    requires Conserved(s) && QueuesOk(s) && s.current.Some? && NextSlot(s, g)
    ensures QueuesOk(Forwarded(s, p', t', at, g))
  {
    hide Conserved, WorkConserving, LastEnd, Later, Lasting, OnTime;
    GrantKeepsQueues(s, g);
    if s.timely { GrantOnTime(s, g); }
  }

  lemma GrantOnTime(s: State, g: Grant)
    requires s.base <= |s.grants| && Lasting(s.grants) && OnTime(s.grants, s.base, s.now) && NextSlot(s, g) && s.timely
    ensures Lasting(s.grants + [g]) && OnTime(s.grants + [g], s.base, s.now)
  {
    hide Later;
  }

  lemma ForwardedPacket(c: Config, adj: Adjacency, sybils: set<NodeId>, s: State, p': Packet, t': Trail, at: real,
      g: Grant)
    requires Conserved(s) && s.current.Some? && PacketOk(c, adj, sybils, s, s.current.value)
    requires Moves(adj, sybils, s.packets[s.current.value], s.trails[s.current.value], p', t', p'.node)
    requires at == Clock(p', t')
    ensures PacketOk(c, adj, sybils, Forwarded(s, p', t', at, g), s.current.value)
  {
    var id := s.current.value;
    WalkExtends(c, adj, sybils, id, s.packets[id], s.trails[id], p', t', p'.node);
    hide Moves, Travelling, Shape;
  }

  lemma ForwardedKeeps(c: Config, adj: Adjacency, sybils: set<NodeId>, s: State, p': Packet, t': Trail, at: real,
      g: Grant)
    requires Inv(c, adj, sybils, s) && s.current.Some?
    requires Moves(adj, sybils, s.packets[s.current.value], s.trails[s.current.value], p', t', p'.node)
    requires NextSlot(s, g) && (s.timely ==> at >= s.now) && at == Clock(p', t')
    ensures Inv(c, adj, sybils, Forwarded(s, p', t', at, g))
  {
    hide HeapMatches, QueuesOk, PacketOk, Moves, NextSlot;
    var s', id := Forwarded(s, p', t', at, g), s.current.value;
    ForwardedHeap(s, p', t', at, g);
    ForwardedQueues(s, p', t', at, g);
    ForwardedPacket(c, adj, sybils, s, p', t', at, g);
    forall i | 0 <= i < |s'.packets| && i != id ensures PacketOk(c, adj, sybils, s', i) {
      PacketFrame(c, adj, sybils, s, s', i);
    }
  }

  lemma ForwardedHeap(s: State, p': Packet, t': Trail, at: real, g: Grant)
    requires Conserved(s) && HeapMatches(s) && s.current.Some? && (s.timely ==> at >= s.now)
    ensures HeapMatches(Forwarded(s, p', t', at, g))
  {
  }

  /** A freshly generated packet, still at its source. */
  ghost predicate Fresh(c: Config, adj: Adjacency, sybils: set<NodeId>, s: State, p: Packet) {
    && p.id == |s.packets| && p.src in adj && p.dst in adj && p.src != p.dst && p.createdAt == s.now && p.ttl == c.ttl
    && p.node == p.src && p.visited == {} && p.hops == 0 && p.latency == 0.0
    && p.touchedSybil == (p.src in sybils) && !p.touchedTransit
  }

  lemma SpawnedHeap(s: State, p: Packet)
    requires Conserved(s) && HeapMatches(s) && s.current == None
    ensures HeapMatches(Spawned(s, p))
  {
  }

  lemma SpawnedPacket(c: Config, adj: Adjacency, sybils: set<NodeId>, s: State, p: Packet)
    requires Conserved(s) && s.current == None && Fresh(c, adj, sybils, s, p)
    ensures PacketOk(c, adj, sybils, Spawned(s, p), |s.packets|)
  {
  }

  lemma SpawnedKeeps(c: Config, adj: Adjacency, sybils: set<NodeId>, s: State, p: Packet)
    requires Inv(c, adj, sybils, s) && s.current == None && Fresh(c, adj, sybils, s, p)
    ensures Inv(c, adj, sybils, Spawned(s, p))
  {
    hide HeapMatches, WorkConserving, LastEnd, PacketOk, Fresh;
    var s', n := Spawned(s, p), |s.packets|;
    SpawnedHeap(s, p);
    SpawnedPacket(c, adj, sybils, s, p);
    forall i | 0 <= i < n ensures PacketOk(c, adj, sybils, s', i) {
      PacketFrame(c, adj, sybils, s, s', i);
    }
  }
}
