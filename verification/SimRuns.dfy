/** Runs of the event-driven simulator (aegis_router/event_sim.py) as sequences of exact steps over everything it
    holds, what every step keeps, and why there is a last one. */
module SimRuns {
  import opened Network
  import opened HopDistance
  import opened PathSearch
  import opened Packets
  import opened Sequences
  import opened SimState
  import opened Arrival
  import opened Links
  import opened Reals
  import opened Selection

  // ---- solvers ------------------------------------------------------------------------

  /** The solver is the shortest-path router, on a graph with nobody offline. */
  ghost predicate ShortestSolver(o: Oracle) {
    forall i: nat, adj: Adjacency, p: Packet ::
      Undirected(adj) && p.node in adj && p.node != p.dst ==>
        ShortestAnswer(adj, {}, p.node, p.dst, o.decide(i, adj, {}, p))
  }

  ghost predicate CarefulSolver(o: Oracle) {
    forall i: nat, adj: Adjacency, off: set<NodeId>, p: Packet ::
      p.dst !in p.visited ==> CarefulAnswer(adj, off, p, o.decide(i, adj, off, p))
  }

  // ---- what the solver is told -------------------------------------------------------------

  function Note(p: Packet, delivered: bool, dropped: bool, reason: Option<Reason>): seq<Observation> {
    if p.lastNeighbor.None? then [] else
      var observable := if reason == Some(SybilDrop) then Some(LinkLoss) else reason;
      [Observation(p.lastNeighbor.value, delivered, dropped, observable, p.lastFrom, false)]
  }

  /** The verdict on the current packet: nothing for a forward, and nothing for a packet whose own node
      went down under it. */
  function Reported(off: set<NodeId>, before: State, after: State): seq<Observation>
    requires before.current.Some? && before.current.value < |before.packets| == |after.packets|
  {
    var id := before.current.value;
    if |after.delivered| > |before.delivered| then Note(before.packets[id], true, false, None)
    else if |after.dropped| == |before.dropped| || |after.reasons| == 0 || before.packets[id].node in off then []
    else Note(after.packets[id], false, true, Some(after.reasons[|after.reasons| - 1]))
  }

  lemma ReportDrop(off: set<NodeId>, s: State, p: Packet, reason: Reason, ahead: Outlook)
    requires s.current.Some? && s.current.value < |s.packets| == |s.trails|
    ensures |Dropped(s, p, reason, ahead).packets| == |s.packets|
    ensures Reported(off, s, Dropped(s, p, reason, ahead)) ==
            if s.packets[s.current.value].node in off then [] else Note(p, false, true, Some(reason))
  {
  }

  lemma ReportDelivery(off: set<NodeId>, s: State)
    requires s.current.Some? && s.current.value < |s.packets|
    ensures Delivered(s).packets == s.packets
    ensures Reported(off, s, Delivered(s)) == Note(s.packets[s.current.value], true, false, None)
  {
  }

  /** One verdict on a hop, if there is one. */
  function Word(hop: Option<NodeId>, success: bool, reason: Option<Reason>, from: Option<NodeId>): seq<Observation> {
    if hop.None? then [] else [Observation(hop.value, success, !success, reason, from, false)]
  }

  /** What the solver hears about an arrival: a success for the last hop of a packet that has arrived, a failure for
      the last hop of one that is given up, or for the chosen hop if that is down or its link fails, which never
      tells a Sybil from a bad link; nothing about a packet that goes on or whose own node is down. */
  lemma ArriveHeard(c: Config, adj: Adjacency, off: set<NodeId>, sybils: set<NodeId>, s: State, next: Option<NodeId>,
      failed: nat)
    requires s.current.Some? && s.current.value < |s.packets| == |s.trails|
    ensures var p, s' := s.packets[s.current.value], ArriveStep(c, adj, off, sybils, s, next, failed);
      |s'.packets| == |s.packets| && Heard(c, adj, off, sybils, p, next, failed, Reported(off, s, s'))
  {
    hide DecisionStep, Dropped, Delivered, Reported, Heard;
    var p, ahead := s.packets[s.current.value], s.trails[s.current.value].ahead;
    if p.node == p.dst {
      ReportDelivery(off, s);
      EarlyHeard(c, adj, off, sybils, p, next, failed);
    } else if p.node in off || p.ttl <= 0 || p.node in p.visited {
      var reason := if p.node in off then NodeDown else if p.ttl <= 0 then TtlExpired else Loop;
      ReportDrop(off, s, p, reason, ahead);
      EarlyHeard(c, adj, off, sybils, p, next, failed);
    } else {
      DecisionHeard(c, adj, off, sybils, s, next, failed);
    }
  }

  /** Before the solver is asked. */
  lemma EarlyHeard(c: Config, adj: Adjacency, off: set<NodeId>, sybils: set<NodeId>, p: Packet, next: Option<NodeId>,
      failed: nat)
    ensures p.node == p.dst ==> Heard(c, adj, off, sybils, p, next, failed, Note(p, true, false, None))
    ensures p.node != p.dst && p.node in off ==> Heard(c, adj, off, sybils, p, next, failed, [])
    ensures p.node != p.dst && p.node !in off && p.ttl <= 0 ==>
      Heard(c, adj, off, sybils, p, next, failed, Note(p, false, true, Some(TtlExpired)))
    ensures p.node != p.dst && p.node !in off && p.ttl > 0 && p.node in p.visited ==>
      Heard(c, adj, off, sybils, p, next, failed, Note(p, false, true, Some(Loop)))
  {
  }

  /** The verdict on a hop the solver chose, as the simulator notes it. */
  lemma ChosenHeard(c: Config, adj: Adjacency, off: set<NodeId>, sybils: set<NodeId>, p: Packet, next: Option<NodeId>,
      failed: nat, q: Packet)
    requires p.node != p.dst && Asks(off, p)
    ensures next.None? || next.value !in Neighbors(adj, p.node) ==>
      Heard(c, adj, off, sybils, p, next, failed, Note(Asked(p), false, true, Some(NoRoute)))
    ensures (&& next.Some? && next.value in Neighbors(adj, p.node)
             && q.lastFrom == Some(p.node) && q.lastNeighbor == next) ==>
      && (next.value in off ==> Heard(c, adj, off, sybils, p, next, failed, Note(q, false, true, Some(NodeDown))))
      && (next.value !in off && failed > c.retries ==>
            Heard(c, adj, off, sybils, p, next, failed,
                  Note(q, false, true, Some(if next.value in sybils then SybilDrop else LinkLoss))))
      && (next.value !in off && failed <= c.retries ==> Heard(c, adj, off, sybils, p, next, failed, []))
  {
  }

  lemma DecisionHeard(c: Config, adj: Adjacency, off: set<NodeId>, sybils: set<NodeId>, s: State, next: Option<NodeId>,
      failed: nat)
    requires s.current.Some? && s.current.value < |s.packets| == |s.trails|
    requires s.packets[s.current.value].node != s.packets[s.current.value].dst && Asks(off, s.packets[s.current.value])
    ensures var p, s' := s.packets[s.current.value], DecisionStep(c, adj, off, sybils, s, next, failed);
      |s'.packets| == |s.packets| && Heard(c, adj, off, sybils, p, next, failed, Reported(off, s, s'))
  {
    hide DecisionStep, Dropped, Reported, Heard, ForwardStep, Note, EffectiveLoss;
    var p := s.packets[s.current.value];
    var q, ahead := Asked(p), Ahead(adj, off, Asked(p));
    UnroutedStep(c, adj, off, sybils, s, q, next, failed);
    if next.None? || next.value !in Neighbors(adj, p.node) {
      ReportDrop(off, s, q, NoRoute, ahead);
      ChosenHeard(c, adj, off, sybils, p, next, failed, q);
    } else if next.value in off {
      var down := q.(lastFrom := Some(p.node), lastNeighbor := next);
      ReportDrop(off, s, down, NodeDown, ahead);
      ChosenHeard(c, adj, off, sybils, p, next, failed, down);
    } else {
      var nxt := next.value;
      var m := adj[p.node][nxt];
      var sent := Sent(sybils, q, nxt, EffectiveLoss(c, sybils, m, nxt));
      LinkStep(c, adj, off, sybils, s, q, nxt, failed);
      ReportDrop(off, s, sent, if nxt in sybils then SybilDrop else LinkLoss, ahead);
      ForwardQuiet(off, c, sybils, s, nxt, m, failed, ahead);
      ChosenHeard(c, adj, off, sybils, p, next, failed, sent);
    }
  }

  lemma ForwardQuiet(off: set<NodeId>, c: Config, sybils: set<NodeId>, s: State, nxt: NodeId, m: LinkMetrics,
      failed: nat, ahead: Outlook)
    requires s.current.Some? && s.current.value < |s.packets| == |s.trails|
    ensures var s' := ForwardStep(c, sybils, s, nxt, m, failed, ahead);
      |s'.packets| == |s.packets| && Reported(off, s, s') == []
  {
    hide Hopped, HopTrail, Granted;
  }

  ghost predicate Heard(c: Config, adj: Adjacency, off: set<NodeId>, sybils: set<NodeId>, p: Packet,
      next: Option<NodeId>, failed: nat, heard: seq<Observation>)
  {
    && (p.node == p.dst ==> heard == Word(p.lastNeighbor, true, None, p.lastFrom))
    && (p.node != p.dst && p.node in off ==> heard == [])
    && (p.node !in off ==>
          && (DropsFor(c, adj, off, sybils, p, next, failed, TtlExpired) ==>
                heard == Word(p.lastNeighbor, false, Some(TtlExpired), p.lastFrom))
          && (DropsFor(c, adj, off, sybils, p, next, failed, Loop) ==>
                heard == Word(p.lastNeighbor, false, Some(Loop), p.lastFrom))
          && (DropsFor(c, adj, off, sybils, p, next, failed, NoRoute) ==>
                heard == Word(p.lastNeighbor, false, Some(NoRoute), p.lastFrom))
          && (DropsFor(c, adj, off, sybils, p, next, failed, NodeDown) ==>
                heard == Word(next, false, Some(NodeDown), Some(p.node)))
          && (DropsFor(c, adj, off, sybils, p, next, failed, LinkLoss) ==>
                heard == Word(next, false, Some(LinkLoss), Some(p.node)))
          && (DropsFor(c, adj, off, sybils, p, next, failed, SybilDrop) ==>
                heard == Word(next, false, Some(LinkLoss), Some(p.node))))
    && (Transmits(adj, off, p, next) && failed <= c.retries ==> heard == [])
  }

  /** A careful solver's chosen hop is never blamed for being down. */
  ghost predicate NobodyBlamed(observed: seq<Observation>) {
    forall o :: o in observed ==> o.reason != Some(NodeDown)
  }

  lemma CarefulNeverBlames(c: Config, adj: Adjacency, off: set<NodeId>, sybils: set<NodeId>, s: State,
      next: Option<NodeId>, failed: nat)
    requires Conserved(s) && s.current.Some?
    requires var p := s.packets[s.current.value]; p.node != p.dst ==> CarefulAnswer(adj, off, Asked(p), next)
    ensures NobodyBlamed(Reported(off, s, ArriveStep(c, adj, off, sybils, s, next, failed)))
  {
  }

  // ---- order and clock ------------------------------------------------------------------

  predicate Earlier(e: Event, f: Event) {
    e.time < f.time || (e.time == f.time && e.seqNo < f.seqNo)
  }

  /** Time at which the generation after the gaps from `lo` to `hi` is due. */
  function Elapsed(gaps: nat -> real, lo: nat, hi: nat): real {
    if hi <= lo then 0.0 else Elapsed(gaps, lo, hi - 1) + gaps(hi - 1)
  }

  /** Draws are what the random module promises: two distinct nodes, links of the graph, gaps in time. */
  ghost predicate DrawsOk(o: Oracle, links: Adjacency) {
    && (forall i: nat :: o.pairs(i).0 in links && o.pairs(i).1 in links && o.pairs(i).0 != o.pairs(i).1)
    && (forall i: nat, k: nat :: k < |o.links(i)| ==> o.links(i)[k].1 in Neighbors(links, o.links(i)[k].0))
    && (forall i: nat :: o.gaps(i) >= 0.0)
  }

  lemma DrawsAt(o: Oracle, links: Adjacency, i: nat, j: nat)
    requires DrawsOk(o, links)
    ensures o.pairs(i).0 in links && o.pairs(i).1 in links && o.pairs(i).0 != o.pairs(i).1 && o.gaps(j) >= 0.0
  {
  }

  ghost predicate HasKind(events: set<Event>, kind: Kind) {
    exists e :: e in events && e.kind == kind
  }

  /** Events are handled strictly in order of time, and of insertion at equal times. */
  ghost predicate InOrder(log: seq<Event>) {
    forall i, j :: 0 <= i < j < |log| ==> Earlier(log[i], log[j])
  }

  /** In a timely run everything handled so far precedes everything still to come. */
  ghost predicate Logged(log: seq<Event>, s: State) {
    s.timely ==> InOrder(log) && forall e :: e in log ==> Precedes(e, s)
  }

  ghost predicate Precedes(e: Event, s: State) {
    e.time <= s.now && e.seqNo < s.counter && forall f :: f in s.events ==> Earlier(e, f)
  }

  lemma LogNext(log: seq<Event>, s: State, e: Event, s': State)
    requires Logged(log, s) && HeapMatches(s) && e in s.events && (forall f :: f in s.events ==> !Earlier(f, e))
    requires Grown(Popped(s, e), s') && HeapMatches(s')
    ensures Logged(log + [e], s')
  {
    hide Popped, Grown, Precedes, Earlier, HeapMatches;
    if s'.timely && s.timely {
      forall x | x in log + [e] ensures Precedes(x, s') {
        if x in log { StillPrecedes(x, s, e, s'); } else { NowPrecedes(s, e, s'); }
      }
      forall i, j | 0 <= i < j < |log + [e]| ensures Earlier((log + [e])[i], (log + [e])[j]) {
        if j == |log| { PrecedesPopped(log[i], s, e); }
      }
    } else {
      PoppedTimely(s, e, s');
    }
  }

  lemma PoppedTimely(s: State, e: Event, s': State)
    requires Grown(Popped(s, e), s')
    ensures s'.timely == s.timely
  {
  }

  lemma StillPrecedes(x: Event, s: State, e: Event, s': State)
    requires s.timely && s'.timely && Precedes(x, s) && HeapMatches(s) && e in s.events && Grown(Popped(s, e), s')
    requires HeapMatches(s')
    ensures Precedes(x, s')
  {
  }

  lemma NowPrecedes(s: State, e: Event, s': State)
    requires s.timely && s'.timely && HeapMatches(s) && e in s.events && (forall f :: f in s.events ==> !Earlier(f, e))
    requires Grown(Popped(s, e), s') && HeapMatches(s')
    ensures Precedes(e, s')
  {
  }

  lemma PrecedesPopped(x: Event, s: State, e: Event)
    requires Precedes(x, s) && e in s.events
    ensures Earlier(x, e)
  {
  }

  // ---- metric drift ------------------------------------------------------------------------

  function Clamp(x: real, lo: real, hi: real): real { Max(lo, Min(hi, x)) }

  /** r is the value from lo to hi that is nearest to x. */
  predicate Nearest(r: real, x: real, lo: real, hi: real) {
    && lo <= r <= hi && (lo <= x <= hi ==> r == x)
    && (x < lo ==> r == lo) && (x > hi ==> r == hi)
  }

  function Drifted(m: LinkMetrics, d: LinkMetrics): (r: LinkMetrics)
    ensures 0.02 <= r.latency <= 1.5 && 0.05 <= r.bandwidth <= 1.0 && 0.0 <= r.loss <= 0.7 && 0.05 <= r.stability <= 1.0
    ensures Nearest(r.latency, m.latency + d.latency, 0.02, 1.5) && Nearest(r.loss, m.loss + d.loss, 0.0, 0.7)
    ensures Nearest(r.bandwidth, m.bandwidth + d.bandwidth, 0.05, 1.0)
    ensures Nearest(r.stability, m.stability + d.stability, 0.05, 1.0)
  {
    LinkMetrics(Clamp(m.latency + d.latency, 0.02, 1.5), Clamp(m.bandwidth + d.bandwidth, 0.05, 1.0),
                Clamp(m.loss + d.loss, 0.0, 0.7), Clamp(m.stability + d.stability, 0.05, 1.0))
  }

  lemma DriftKeeps(c: Config, links: Adjacency, adj: Adjacency, timely: bool, a: NodeId, b: NodeId, m: LinkMetrics)
    requires Env(c, links, adj, timely) && Undirected(adj) && b in Neighbors(adj, a) && m.latency >= 0.0
    ensures Env(c, links, WithEdge(adj, a, b, m), timely)
  {
    WithEdgeLinks(adj, a, b, m);
    var adj' := WithEdge(adj, a, b, m);
    forall n | n in adj' ensures n in adj && adj'[n].Keys == adj[n].Keys {
      assert forall y :: y in adj'[n] <==> y in adj[n];
    }
  }

  /** The links of a sample drift one after the other, by the draws from `first` on. */
  function DriftAll(adj: Adjacency, sample: seq<(NodeId, NodeId)>, draws: nat -> LinkMetrics, first: nat): Adjacency {
    if |sample| == 0 then adj
    else
      var adj', (a, b) := DriftAll(adj, sample[..|sample| - 1], draws, first), sample[|sample| - 1];
      if b in Neighbors(adj', a) then WithEdge(adj', a, b, Drifted(adj'[a][b], draws(first + |sample| - 1))) else adj'
  }

  /** Links outside the sample keep their metrics. */
  lemma {:induction false} DriftElsewhere(adj: Adjacency, sample: seq<(NodeId, NodeId)>, draws: nat -> LinkMetrics,
      first: nat, a: NodeId, b: NodeId)
    requires b in Neighbors(adj, a) && (a, b) !in sample && (b, a) !in sample
    ensures var adj' := DriftAll(adj, sample, draws, first); b in Neighbors(adj', a) && adj'[a][b] == adj[a][b]
  {
    hide Drifted, WithEdge;
    if |sample| > 0 {
      var init := sample[..|sample| - 1];
      var (x, y) := sample[|sample| - 1];
      DriftElsewhere(adj, init, draws, first, a, b);
      var adj' := DriftAll(adj, init, draws, first);
      if y in Neighbors(adj', x) {
        WithEdgeLinks(adj', x, y, Drifted(adj'[x][y], draws(first + |sample| - 1)));
      }
    }
  }

  /** A link that is sampled once drifts from where it was by its own draw, at both ends. */
  lemma {:induction false} DriftOfLink(adj: Adjacency, sample: seq<(NodeId, NodeId)>, draws: nat -> LinkMetrics,
      first: nat, k: nat)
    requires k < |sample| && sample[k].1 in Neighbors(adj, sample[k].0)
    requires forall j :: 0 <= j < |sample| && j != k ==>
      sample[j] != sample[k] && sample[j] != (sample[k].1, sample[k].0)
    ensures var adj', (a, b) := DriftAll(adj, sample, draws, first), sample[k];
      && b in Neighbors(adj', a) && adj'[a][b] == Drifted(adj[a][b], draws(first + k))
      && a in Neighbors(adj', b) && adj'[b][a] == adj'[a][b]
  {
    hide Drifted, WithEdge;
    var init, z := sample[..|sample| - 1], |sample| - 1;
    var (a, b) := sample[k];
    var (x, y) := sample[z];
    var adj' := DriftAll(adj, init, draws, first);
    if k == z {
      DriftElsewhere(adj, init, draws, first, a, b);
      WithEdgeLinks(adj', a, b, Drifted(adj'[a][b], draws(first + z)));
    } else {
      DriftOfLink(adj, init, draws, first, k);
      if y in Neighbors(adj', x) {
        WithEdgeLinks(adj', x, y, Drifted(adj'[x][y], draws(first + z)));
      }
    }
  }

  lemma NoDrift(adj: Adjacency, draws: nat -> LinkMetrics, first: nat)
    ensures DriftAll(adj, [], draws, first) == adj
  {
  }

  lemma EnvNeighbors(c: Config, links: Adjacency, adj: Adjacency, timely: bool, n: NodeId)
    requires Env(c, links, adj, timely)
    ensures Neighbors(adj, n) == Neighbors(links, n)
  {
  }

  lemma DriftNext(adj: Adjacency, sample: seq<(NodeId, NodeId)>, draws: nat -> LinkMetrics, first: nat, k: nat)
    requires k < |sample|
    ensures var adj', (a, b) := DriftAll(adj, sample[..k], draws, first), sample[k];
      b in Neighbors(adj', a) ==>
        DriftAll(adj, sample[..k + 1], draws, first) == WithEdge(adj', a, b, Drifted(adj'[a][b], draws(first + k)))
  {
    hide WithEdge, Drifted;
    assert sample[..k + 1][..k] == sample[..k];
  }

  // ---- churn ---------------------------------------------------------------------------------

  function StaysDown(c: Config, down: bool, x: real): bool {
    if down then x >= c.churnRecovery else x < c.churnRate
  }

  predicate Decides(c: Config, random: nat -> real, i: nat, was: bool, down: bool) {
    down == StaysDown(c, was, random(i))
  }

  /** The nodes go down or recover in the given order, each by the next draw; other nodes are left alone. */
  ghost predicate ChurnedInOrder(c: Config, random: nat -> real, lo: nat, order: seq<NodeId>, off: set<NodeId>,
      off': set<NodeId>)
  {
    && Distinct(order) && (forall n :: n !in order ==> (n in off' <==> n in off))
    && forall k :: 0 <= k < |order| ==> Decides(c, random, lo + k, order[k] in off, order[k] in off')
  }

  /** Each of the nodes goes down or recovers by a draw of its own. */
  ghost predicate ChurnOutcome(c: Config, random: nat -> real, lo: nat, hi: nat, nodes: set<NodeId>, off: set<NodeId>,
      off': set<NodeId>)
  {
    hi == lo + |nodes| && exists order :: Elements(order) == nodes && ChurnedInOrder(c, random, lo, order, off, off')
  }

  // ---- a run as a whole -----------------------------------------------------------------------

  /** What stays fixed during a run: its horizon, the generations it started from, a number of generations
      whose gaps outlast it, which of the two kinds of solver is in use, and whether no link ever fails. */
  datatype Setting = Setting(oracle: Oracle, cfg: Config, links: Adjacency, sybils: set<NodeId>, duration: real,
      end: real, rate: real, first: nat, n: nat, shortest: bool, careful: bool, lossless: bool)

  /** Everything the simulator holds besides its configuration: the history, the network, what the solver was
      told, and how far each source of draws is used up. */
  datatype Mark = Mark(s: State, adj: Adjacency, off: set<NodeId>, observed: seq<Observation>, retransmissions: nat,
      draws: nat, decisions: nat, gapsUsed: nat, ticks: nat, drifts: nat)

  ghost predicate SettingOk(w: Setting) {
    && DrawsOk(w.oracle, w.links) && (w.rate > 0.0 ==> Elapsed(w.oracle.gaps, w.first, w.n) > w.duration)
    && w.duration <= w.end
    && (w.shortest ==> ShortestSolver(w.oracle) && Connected(w.links) && Undirected(w.links) && w.cfg.churnRate <= 0.0)
    && (w.careful ==> CarefulSolver(w.oracle))
  }

  /** No packet's records changed. */
  predicate SameRecords(s: State, s': State) {
    s'.packets == s.packets && s'.trails == s.trails && s'.dropped == s.dropped && s'.reasons == s.reasons
  }

  // ---- the steps of a run ------------------------------------------------------------------------

  predicate Dynamic(c: Config) {
    (c.congestionRate > 0.0 || c.churnRate > 0.0) && c.perturbInterval > 0.0
  }

  /** A run starts with a generation and, on a dynamic network, a perturbation, behind whatever an earlier run
      left on the heap. */
  function Opened(c: Config, s: State): State {
    var s' := Scheduled(Begun(s), 0.0, Generate);
    if Dynamic(c) then Scheduled(s', c.perturbInterval, Perturb) else s'
  }

  /** The packet gets as far as the solver. */
  predicate Asks(off: set<NodeId>, p: Packet) {
    p.node != p.dst && p.node !in off && p.ttl > 0 && p.node !in p.visited
  }

  /** The draws from `cursor` on fail the link exactly `failed` times. */
  ghost predicate TriedLink(o: Oracle, c: Config, sybils: set<NodeId>, adj: Adjacency, node: NodeId, nxt: NodeId,
      cursor: nat, failed: nat)
    requires nxt in Neighbors(adj, node)
  {
    Tried(o.random, cursor, EffectiveLoss(c, sybils, adj[node][nxt], nxt), c.retries + 1, failed)
  }

  /** Transmissions of a frame that failed so often. */
  function Spent(c: Config, failed: nat): nat {
    if failed > c.retries then failed else failed + 1
  }

  function Resent(transmissions: nat): nat {
    if transmissions > 1 then transmissions - 1 else 0
  }

  /** An arrival: the solver is asked exactly when the packet goes on, and the link draws as long as it fails. */
  ghost predicate ArriveMark(w: Setting, k: Mark, e: Event, next: Option<NodeId>, failed: nat, k': Mark) {
    && e.kind.Arrive? && e.kind.id < |k.s.packets| == |k.s.trails| == |k'.s.packets|
    && var p, s := k.s.packets[e.kind.id], Popped(k.s, e);
    && var tries := Transmits(k.adj, k.off, p, next);
    && next == w.oracle.decide(k.decisions, k.adj, k.off, Asked(p))
    && (tries ==> TriedLink(w.oracle, w.cfg, w.sybils, k.adj, p.node, next.value, k.draws, failed))
    && var spent := if tries then Spent(w.cfg, failed) else 0;
    && k' == k.(s := ArriveStep(w.cfg, k.adj, k.off, w.sybils, s, next, failed),
                observed := k.observed + Reported(k.off, s, k'.s),
                retransmissions := k.retransmissions + Resent(spent), draws := k.draws + spent,
                decisions := k.decisions + if Asks(k.off, p) then 1 else 0)
  }

  function Again(w: Setting, k: Mark, time: real): Option<real> {
    var at := time + w.oracle.gaps(k.gapsUsed);
    if w.rate > 0.0 && at <= w.duration then Some(at) else None
  }

  /** A generation, which does nothing past the duration. */
  ghost predicate GenerateMark(w: Setting, k: Mark, e: Event, k': Mark) {
    && e.kind == Generate
    && k' == if e.time > w.duration then k.(s := Popped(k.s, e))
             else k.(s := GenerateStep(w.cfg, w.sybils, Popped(k.s, e), w.oracle.pairs(|k.s.packets|).0,
                                       w.oracle.pairs(|k.s.packets|).1, Again(w, k, e.time)),
                     gapsUsed := k.gapsUsed + if w.rate > 0.0 then 1 else 0)
  }

  function NextTick(c: Config, end: real, s: State, time: real): State {
    var at := time + c.perturbInterval;
    if at <= end then Scheduled(s, at, Perturb) else s
  }

  /** The sampled links drift. */
  predicate Congested(o: Oracle, c: Config, k: Mark, k': Mark) {
    if c.congestionRate > 0.0 then
      var sample := o.links(k.ticks);
      && k'.adj == DriftAll(k.adj, sample, o.drift, k.drifts)
      && k'.ticks == k.ticks + 1 && k'.drifts == k.drifts + |sample|
    else k'.adj == k.adj && k'.ticks == k.ticks && k'.drifts == k.drifts
  }

  /** A perturbation: links drift, nodes go down or recover, and the next tick is due. */
  ghost predicate PerturbMark(w: Setting, k: Mark, e: Event, k': Mark) {
    && e.kind == Perturb && Congested(w.oracle, w.cfg, k, k')
    && (if w.cfg.churnRate > 0.0
        then ChurnOutcome(w.cfg, w.oracle.random, k.draws, k'.draws, k'.adj.Keys, k.off, k'.off)
        else k'.off == k.off && k'.draws == k.draws)
    && k' == k.(s := NextTick(w.cfg, w.end, Popped(k.s, e), e.time), adj := k'.adj, off := k'.off, draws := k'.draws,
                ticks := k'.ticks, drifts := k'.drifts)
  }

  ghost predicate IsLeast(events: set<Event>, e: Event) {
    e in events && forall f :: f in events ==> !Earlier(f, e)
  }

  /** The least event is handled, within the horizon. */
  ghost predicate Stepped(w: Setting, k: Mark, e: Event, k': Mark) {
    && IsLeast(k.s.events, e) && e.time <= w.end
    && match e.kind
       case Generate => GenerateMark(w, k, e, k')
       case Arrive(_) => exists next, failed :: ArriveMark(w, k, e, next, failed, k')
       case Perturb => PerturbMark(w, k, e, k')
  }

  /** Nothing is left to do, or the least event is past the end and is taken off the heap all the same. */
  ghost predicate Ended(w: Setting, k: Mark, k': Mark) {
    || (k.s.events == {} && k' == k)
    || (exists e :: IsLeast(k.s.events, e) && e.time > w.end && k' == k.(s := Discarded(k.s, e)))
  }

  ghost predicate Traced(w: Setting, marks: seq<Mark>, log: seq<Event>) {
    |marks| == |log| + 1 && forall i :: 0 <= i < |log| ==> Stepped(w, marks[i], log[i], marks[i + 1])
  }

  /** A whole run from one mark to another: `marks` is where it got to before and after each handled event. */
  ghost predicate RunOf(w: Setting, k: Mark, marks: seq<Mark>, log: seq<Event>, k': Mark) {
    Traced(w, marks, log) && marks[0] == k.(s := Opened(w.cfg, k.s)) && Ended(w, marks[|log|], k')
  }

  lemma NothingTraced(w: Setting, k: Mark)
    ensures Traced(w, [k], [])
  {
  }

  lemma TraceNext(w: Setting, marks: seq<Mark>, log: seq<Event>, e: Event, k: Mark)
    requires Traced(w, marks, log) && Stepped(w, marks[|log|], e, k)
    ensures Traced(w, marks + [k], log + [e])
  {
    hide Stepped;
  }

  // ---- what every step keeps ---------------------------------------------------------------------

  ghost predicate Steered(w: Setting, k: Mark) {
    && (w.shortest ==> Routed(w.links, k.s) && k.off == {})
    && (w.careful ==> Wary(k.s) && NobodyBlamed(k.observed))
    && (w.lossless ==> NothingLost(k.s) && Unfailing(w.oracle, w.cfg, w.sybils, k.adj))
  }

  /** No draw is below the loss probability of a link, now or after any drift. */
  ghost predicate Unfailing(o: Oracle, c: Config, sybils: set<NodeId>, adj: Adjacency) {
    || (forall i: nat :: o.random(i) >= 0.95)
    || (c.congestionRate <= 0.0 && forall a, b, i: nat :: b in Neighbors(adj, a) ==>
          o.random(i) >= adj[a][b].loss + if b in sybils then c.sybilExtraDrop else 0.0)
  }

  lemma UnfailingTry(o: Oracle, c: Config, sybils: set<NodeId>, adj: Adjacency, a: NodeId, b: NodeId, cursor: nat,
      failed: nat)
    requires Unfailing(o, c, sybils, adj) && b in Neighbors(adj, a)
    requires TriedLink(o, c, sybils, adj, a, b, cursor, failed)
    ensures failed == 0
  {
    assert o.random(cursor) >= EffectiveLoss(c, sybils, adj[a][b], b);
  }

  /** At most one generation is pending, at its own time. */
  ghost predicate Agenda(w: Setting, k: Mark) {
    && w.first <= k.gapsUsed <= w.n
    && (forall e :: e in k.s.events && e.kind == Generate ==>
          e.time == Elapsed(w.oracle.gaps, w.first, k.gapsUsed) && (e.time <= w.duration || e.time == 0.0))
    && (forall e :: e in k.s.events && e.kind == Perturb ==> w.cfg.perturbInterval > 0.0)
  }

  ghost predicate RunOk(w: Setting, k: Mark) {
    && Inv(w.cfg, w.links, w.sybils, k.s) && Env(w.cfg, w.links, k.adj, k.s.timely) && Undirected(k.adj)
    && k.s.current == None && Steered(w, k) && Agenda(w, k)
  }

  /** Generations still to come. */
  ghost function Gens(w: Setting, k: Mark): nat {
    (if k.gapsUsed <= w.n then w.n - k.gapsUsed else 0) + if HasKind(k.s.events, Generate) then 1 else 0
  }

  /** Ticks of a pending perturbation within the horizon. */
  function Ticks(w: Setting, e: Event): nat {
    if e.kind == Perturb && e.time <= w.end && w.cfg.perturbInterval > 0.0 then
      OneTickLess(w.end, e.time, w.cfg.perturbInterval);
      ((w.end - e.time) / w.cfg.perturbInterval).Floor + 1
    else 0
  }

  /** Perturbations still to come; an earlier run may have left some pending. */
  ghost function TickSum(w: Setting, events: set<Event>): nat {
    if events == {} then 0 else var e :| e in events; Ticks(w, e) + TickSum(w, events - {e})
  }

  lemma {:induction false} TickPick(w: Setting, events: set<Event>, e: Event)
    requires e in events
    ensures TickSum(w, events) == Ticks(w, e) + TickSum(w, events - {e})
    decreases events
  {
    hide Ticks;
    var f :| f in events && TickSum(w, events) == Ticks(w, f) + TickSum(w, events - {f});
    if f != e {
      TickPick(w, events - {f}, e);
      TickPick(w, events - {e}, f);
      assert events - {f} - {e} == events - {e} - {f};
    }
  }

  ghost predicate Closer(w: Setting, k: Mark, k': Mark) {
    || Gens(w, k') < Gens(w, k)
    || (Gens(w, k') == Gens(w, k) && Load(k'.s, |k'.s.packets|) < Load(k.s, |k.s.packets|))
    || (&& Gens(w, k') == Gens(w, k) && Load(k'.s, |k'.s.packets|) == Load(k.s, |k.s.packets|)
        && TickSum(w, k'.s.events) < TickSum(w, k.s.events))
  }

  lemma ArriveSteered(w: Setting, k: Mark, e: Event, next: Option<NodeId>, failed: nat, k': Mark)
    requires SettingOk(w) && ArriveMark(w, k, e, next, failed, k') && SameLinks(k.adj, w.links) && Undirected(k.adj)
    requires Inv(w.cfg, w.links, w.sybils, Popped(k.s, e)) && Steered(w, k.(s := Popped(k.s, e)))
    ensures Steered(w, k')
  {
    hide Inv, ArriveStep, Routed, Wary, DrawsOk, SameLinks, Undirected, Connected, CarefulAnswer, ShortestAnswer,
         Reported, Transmits, Asks, TriedLink;
    var s := Popped(k.s, e);
    InvConserved(w.cfg, w.links, w.sybils, s);
    if w.shortest {
      NodeKnown(w.cfg, w.links, w.sybils, s);
      assert s.packets[e.kind.id].node in k.adj by { SameNodes(k.adj, w.links, s.packets[e.kind.id].node); }
      ArriveRouted(w.cfg, w.links, k.adj, w.sybils, s, next, failed);
    }
    if w.careful {
      DstUnvisited(w.cfg, w.links, w.sybils, s);
      ArriveWary(w.cfg, k.adj, k.off, w.sybils, s, next, failed);
      CarefulNeverBlames(w.cfg, k.adj, k.off, w.sybils, s, next, failed);
    }
    if w.lossless {
      ArriveUnfailing(w, k, e, next, failed, k');
    }
  }

  lemma ArriveUnfailing(w: Setting, k: Mark, e: Event, next: Option<NodeId>, failed: nat, k': Mark)
    requires ArriveMark(w, k, e, next, failed, k') && Unfailing(w.oracle, w.cfg, w.sybils, k.adj)
    requires NothingLost(Popped(k.s, e))
    ensures NothingLost(k'.s)
  {
    hide ArriveStep, Reported, Unfailing, TriedLink, NothingLost;
    var p := k.s.packets[e.kind.id];
    if Transmits(k.adj, k.off, p, next) {
      UnfailingTry(w.oracle, w.cfg, w.sybils, k.adj, p.node, next.value, k.draws, failed);
    }
    ArriveLossless(w.cfg, k.adj, k.off, w.sybils, Popped(k.s, e), next, failed);
  }

  lemma ArriveAgenda(w: Setting, k: Mark, e: Event, next: Option<NodeId>, failed: nat, k': Mark)
    requires ArriveMark(w, k, e, next, failed, k') && Agenda(w, k) && e.kind.id in k.s.due
    ensures Agenda(w, k') && Closer(w, k, k') && Grown(Popped(k.s, e), k'.s)
  {
    hide ArriveStep, Transmits, Asks, TriedLink, Reported, Elapsed;
    var s := Popped(k.s, e);
    ArriveGrows(w.cfg, k.adj, k.off, w.sybils, s, next, failed);
    ArriveLoad(w.cfg, k.adj, k.off, w.sybils, k.s, e, next, failed);
    forall f | f in k'.s.events && !f.kind.Arrive? ensures f in k.s.events {}
  }

  lemma ArriveRuns(w: Setting, k: Mark, e: Event, next: Option<NodeId>, failed: nat, k': Mark)
    requires SettingOk(w) && RunOk(w, k) && IsLeast(k.s.events, e) && ArriveMark(w, k, e, next, failed, k')
    ensures RunOk(w, k') && Closer(w, k, k') && Grown(Popped(k.s, e), k'.s)
  {
    assert e.kind.id in k.s.due;
    hide Inv, Env, Undirected, ArriveStep, Steered, SettingOk, Agenda, Closer, Grown, Reported, Transmits, Asks,
         TriedLink;
    PopKeeps(w, k, e);
    ArriveKeeps(w.cfg, w.links, k.adj, k.off, w.sybils, Popped(k.s, e), next, failed);
    EnvLinks(w.cfg, w.links, k.adj, k.s.timely);
    ArriveSteered(w, k, e, next, failed, k');
    ArriveAgenda(w, k, e, next, failed, k');
    assert k'.s.timely == k.s.timely by { PoppedTimely(k.s, e, k'.s); }
  }

  lemma EnvLinks(c: Config, links: Adjacency, adj: Adjacency, timely: bool)
    requires Env(c, links, adj, timely)
    ensures SameLinks(adj, links)
  {
  }

  lemma RunInv(w: Setting, k: Mark)
    requires RunOk(w, k)
    ensures Steered(w, k) && Inv(w.cfg, w.links, w.sybils, k.s) && k.s.current == None
  {
  }

  lemma PopFacts(w: Setting, k: Mark, e: Event)
    requires RunOk(w, k) && e in k.s.events
    ensures e.kind.Generate? ==> !HasKind(Popped(k.s, e).events, Generate)
    ensures e.kind.Perturb? ==> w.cfg.perturbInterval > 0.0
    ensures e.kind.Arrive? ==> e.kind.id < |k.s.packets| == |k.s.trails| && k.s.packets[e.kind.id].id == e.kind.id
  {
    hide Env, Undirected, Steered, QueuesOk;
    if e.kind.Arrive? {
      assert e.kind.id in k.s.due;
      assert PacketOk(w.cfg, w.links, w.sybils, k.s, e.kind.id);
    }
  }

  lemma PopKeeps(w: Setting, k: Mark, e: Event)
    requires RunOk(w, k) && IsLeast(k.s.events, e)
    ensures var s := Popped(k.s, e);
      && Inv(w.cfg, w.links, w.sybils, s) && Steered(w, k.(s := s)) && Agenda(w, k.(s := s))
      && s.current == if e.kind.Arrive? then Some(e.kind.id) else None
  {
    hide Inv, Env, Undirected, Routed, Wary, Agenda, Earlier, Popped;
    LeastIsEarliest(k.s.events, e);
    InvConserved(w.cfg, w.links, w.sybils, k.s);
    InvHeap(w.cfg, w.links, w.sybils, k.s);
    PoppedKeeps(w.cfg, w.links, w.sybils, k.s, e);
    if w.shortest { PoppedRouted(w.links, k.s, e); }
    if w.careful { PoppedWary(k.s, e); }
    PoppedNow(k.s, e);
    PopAgenda(w, k, e);
  }

  lemma LeastIsEarliest(events: set<Event>, e: Event)
    requires forall f :: f in events ==> !Earlier(f, e)
    ensures forall f :: f in events ==> e.time <= f.time
  {
  }

  lemma InvHeap(c: Config, links: Adjacency, sybils: set<NodeId>, s: State)
    requires Inv(c, links, sybils, s)
    ensures HeapMatches(s)
  {
  }

  lemma PopAgenda(w: Setting, k: Mark, e: Event)
    requires Agenda(w, k) && k.s.current == None
    ensures Agenda(w, k.(s := Popped(k.s, e)))
    ensures !e.kind.Arrive? ==> Popped(k.s, e).current == None
  {
    hide Elapsed;
  }

  /** What a generation leaves on the heap. */
  lemma GenerateEvents(w: Setting, k: Mark, e: Event, k': Mark)
    requires GenerateMark(w, k, e, k') && HeapMatches(k.s) && e in k.s.events
    ensures Grown(Popped(k.s, e), k'.s) && HasKind(k.s.events, Generate) && !HasKind(Popped(k.s, e).events, Generate)
    ensures forall f :: f in k'.s.events && f.kind == Perturb ==> f in k.s.events
    ensures forall f :: f in k'.s.events && f.kind == Generate ==>
      e.time <= w.duration && Again(w, k, e.time).Some? && f.time == Again(w, k, e.time).value
  {
    hide Created, Again;
  }

  /** The next generation is due where the gaps say, and there are fewer than n. */
  lemma AgainElapsed(w: Setting, k: Mark, time: real)
    requires SettingOk(w) && w.first <= k.gapsUsed <= w.n && time <= w.duration
    requires time == Elapsed(w.oracle.gaps, w.first, k.gapsUsed) && w.rate > 0.0
    ensures k.gapsUsed < w.n
    ensures var again := Again(w, k, time);
      again.Some? ==> again.value == Elapsed(w.oracle.gaps, w.first, k.gapsUsed + 1) && again.value <= w.duration
  {
    hide DrawsOk, ShortestSolver, CarefulSolver, Connected, Undirected;
  }

  lemma GenerateAgenda(w: Setting, k: Mark, e: Event, k': Mark)
    requires GenerateMark(w, k, e, k') && Agenda(w, k) && HeapMatches(k.s) && e in k.s.events && SettingOk(w)
    ensures Agenda(w, k') && Closer(w, k, k') && Grown(Popped(k.s, e), k'.s)
    ensures !HasKind(Popped(k.s, e).events, Generate)
  {
    hide SettingOk, Elapsed, Again, GenerateStep, Popped, HeapMatches, Grown;
    GenerateEvents(w, k, e, k');
    if e.time <= w.duration && w.rate > 0.0 {
      AgainElapsed(w, k, e.time);
    } else {
      NoneAgain(w, k, e.time);
      assert !HasKind(k'.s.events, Generate);
    }
  }

  lemma NoneAgain(w: Setting, k: Mark, time: real)
    ensures w.rate <= 0.0 ==> Again(w, k, time) == None
  {
  }

  lemma GenerateSteered(w: Setting, s: State, k: Mark, k': Mark)
    requires SettingOk(w) && Steered(w, k.(s := s)) && Conserved(s) && k'.off == k.off && k'.observed == k.observed
    requires k'.adj == k.adj
    requires var (src, dst) := w.oracle.pairs(|k.s.packets|);
      exists again :: k'.s == GenerateStep(w.cfg, w.sybils, s, src, dst, again)
    ensures Steered(w, k')
  {
    hide Conserved, GenerateStep, Routed, Wary, ShortestSolver, CarefulSolver, Connected, Undirected, Elapsed, DrawsOk;
    var (src, dst) := w.oracle.pairs(|k.s.packets|);
    var again :| k'.s == GenerateStep(w.cfg, w.sybils, s, src, dst, again);
    DrawsAt(w.oracle, w.links, |k.s.packets|, 0);
    if w.shortest { GenerateRouted(w.cfg, w.links, w.sybils, s, src, dst, again); }
    if w.careful { GenerateWary(w.cfg, w.sybils, s, src, dst, again); }
    GenerateReasons(w.cfg, w.sybils, s, src, dst, again);
    hide Unfailing;
  }

  lemma GenerateReasons(c: Config, sybils: set<NodeId>, s: State, src: NodeId, dst: NodeId, again: Option<real>)
    ensures GenerateStep(c, sybils, s, src, dst, again).reasons == s.reasons
  {
    hide Created;
  }

  lemma GenerateRuns(w: Setting, k: Mark, e: Event, k': Mark)
    requires SettingOk(w) && RunOk(w, k) && GenerateMark(w, k, e, k') && IsLeast(k.s.events, e)
    ensures RunOk(w, k') && Closer(w, k, k') && Grown(Popped(k.s, e), k'.s) && !HasKind(Popped(k.s, e).events, Generate)
  {
    InvHeap(w.cfg, w.links, w.sybils, k.s);
    hide Inv, Env, GenerateStep, Steered, Agenda, Closer, Grown, ShortestSolver, CarefulSolver, Connected, Undirected,
         Popped, HeapMatches, Conserved, Earlier, Elapsed, DrawsOk, HasKind, Again;
    GenerateAgenda(w, k, e, k');
    var s := Popped(k.s, e);
    PopKeeps(w, k, e);
    if e.time <= w.duration {
      var src, dst, again := w.oracle.pairs(|k.s.packets|).0, w.oracle.pairs(|k.s.packets|).1, Again(w, k, e.time);
      DrawsAt(w.oracle, w.links, |k.s.packets|, k.gapsUsed);
      PoppedNow(k.s, e);
      AgainLater(w, k, e.time);
      GenerateKeeps(w.cfg, w.links, w.sybils, s, src, dst, again);
      InvConserved(w.cfg, w.links, w.sybils, s);
      GenerateSteered(w, s, k, k');
    }
    PoppedTimely(k.s, e, k'.s);
  }

  lemma AgainLater(w: Setting, k: Mark, time: real)
    requires w.oracle.gaps(k.gapsUsed) >= 0.0
    ensures Again(w, k, time).Some? ==> Again(w, k, time).value >= time
  {
  }

  lemma PoppedNow(s: State, e: Event)
    ensures Popped(s, e).now == e.time && Popped(s, e).packets == s.packets && Popped(s, e).reasons == s.reasons
    ensures !HasKind(Popped(s, e).events, Generate) ==> forall f :: f in Popped(s, e).events ==> !f.kind.Generate?
  {
  }

  lemma OneTickLess(end: real, tick: real, interval: real)
    requires interval > 0.0
    ensures (end - (tick + interval)) / interval == (end - tick) / interval - 1.0
    ensures tick <= end ==> (end - tick) / interval >= 0.0
  {
    var q := (end - tick) / interval;
    assert q * interval == end - tick;
    assert (q - 1.0) * interval == end - (tick + interval);
    QuotientIs(end - (tick + interval), interval, q - 1.0);
  }

  lemma QuotientIs(x: real, y: real, q: real)
    requires y > 0.0 && q * y == x
    ensures x / y == q
  {
  }

  /** A tick is followed by one with fewer ticks left, or by none. */
  lemma TickLess(w: Setting, e: Event, f: Event)
    requires e.kind == Perturb && e.time <= w.end && w.cfg.perturbInterval > 0.0
    requires f.kind == Perturb && f.time == e.time + w.cfg.perturbInterval
    ensures Ticks(w, f) < Ticks(w, e)
  {
    OneTickLess(w.end, e.time, w.cfg.perturbInterval);
  }

  lemma TicksFall(w: Setting, s: State, e: Event)
    requires e in s.events && (forall f :: f in s.events ==> f.seqNo < s.counter)
    requires e.kind == Perturb && e.time <= w.end && w.cfg.perturbInterval > 0.0
    ensures TickSum(w, NextTick(w.cfg, w.end, Popped(s, e), e.time).events) < TickSum(w, s.events)
  {
    hide Ticks, TickSum;
    TickPick(w, s.events, e);
    var f := Event(e.time + w.cfg.perturbInterval, s.counter, Perturb);
    TickLess(w, e, f);
    if f.time <= w.end {
      var rest := s.events - {e};
      TickPick(w, rest + {f}, f);
      assert rest + {f} - {f} == rest;
    }
  }

  lemma PerturbAgenda(w: Setting, k: Mark, e: Event, k': Mark)
    requires PerturbMark(w, k, e, k') && Agenda(w, k) && HeapMatches(k.s) && e in k.s.events && e.time <= w.end
    ensures Agenda(w, k') && Closer(w, k, k') && Grown(Popped(k.s, e), k'.s)
  {
    hide TickSum, Elapsed, ChurnOutcome, DriftAll;
    assert HasKind(k.s.events, Generate) <==> HasKind(k'.s.events, Generate);
    SameLoad(k.s, k'.s, |k.s.packets|);
    TicksFall(w, k.s, e);
  }

  lemma {:induction false} SameLoad(s: State, s': State, n: nat)
    requires s'.packets == s.packets && s'.due == s.due && n <= |s.packets|
    ensures Load(s', n) == Load(s, n)
  {
    if n > 0 {
      SameLoad(s, s', n - 1);
    }
  }

  lemma PerturbRuns(w: Setting, k: Mark, e: Event, k': Mark)
    requires SettingOk(w) && RunOk(w, k) && PerturbMark(w, k, e, k') && e.time <= w.end && IsLeast(k.s.events, e)
    requires Env(w.cfg, w.links, k'.adj, k.s.timely) && Undirected(k'.adj)
    ensures RunOk(w, k') && Closer(w, k, k') && Grown(Popped(k.s, e), k'.s)
  {
    InvHeap(w.cfg, w.links, w.sybils, k.s);
    hide Inv, Env, Steered, Agenda, Closer, Grown, Undirected, Earlier, HeapMatches, Congested, ChurnOutcome, Popped,
         NextTick, DrawsOk, ShortestSolver, CarefulSolver, Connected, Elapsed;
    PerturbAgenda(w, k, e, k');
    PopKeeps(w, k, e);
    PoppedNow(k.s, e);
    NextTickKeeps(w, Popped(k.s, e), e.time);
    assert w.cfg.congestionRate <= 0.0 ==> k'.adj == k.adj by { OnlyCongested(w.oracle, w.cfg, k, k'); }
    SteeredFrame(w, k.(s := Popped(k.s, e)), k');
    PoppedTimely(k.s, e, k'.s);
  }

  lemma OnlyCongested(o: Oracle, c: Config, k: Mark, k': Mark)
    requires Congested(o, c, k, k')
    ensures c.congestionRate <= 0.0 ==> k'.adj == k.adj
  {
  }

  lemma NextTickKeeps(w: Setting, s: State, time: real)
    requires Inv(w.cfg, w.links, w.sybils, s) && time == s.now && w.cfg.perturbInterval > 0.0
    ensures var s' := NextTick(w.cfg, w.end, s, time);
      Inv(w.cfg, w.links, w.sybils, s') && SameRecords(s, s') && s'.current == s.current
  {
    hide Inv;
    if time + w.cfg.perturbInterval <= w.end {
      ScheduledKeeps(w.cfg, w.links, w.sybils, s, time + w.cfg.perturbInterval, Perturb);
    }
  }

  lemma SteeredFrame(w: Setting, k: Mark, k': Mark)
    requires SettingOk(w) && Steered(w, k) && SameRecords(k.s, k'.s) && k'.observed == k.observed
    requires (w.cfg.churnRate <= 0.0 ==> k'.off == k.off) && (w.cfg.congestionRate <= 0.0 ==> k'.adj == k.adj)
    ensures Steered(w, k')
  {
    hide Downhill, ShortestSolver, CarefulSolver, Connected, Undirected, DrawsOk, Elapsed;
  }

  // ---- between runs --------------------------------------------------------------------------------

  /** What a run leaves on the heap: no generation, and nothing that would come before a new one. */
  ghost predicate Resting(c: Config, s: State) {
    && s.current == None
    && forall e :: e in s.events ==> e.time > 0.0 && !e.kind.Generate? && (e.kind.Perturb? ==> c.perturbInterval > 0.0)
  }

  /** With an end before zero nothing at all is handled. */
  ghost predicate Poised(w: Setting, s: State) {
    w.end < 0.0 ==> forall e :: e in s.events ==> e.time >= 0.0 && (e.kind.Generate? <==> e.time == 0.0)
  }

  lemma OpenedInv(w: Setting, s: State)
    requires Inv(w.cfg, w.links, w.sybils, s) && Resting(w.cfg, s)
    ensures Inv(w.cfg, w.links, w.sybils, Opened(w.cfg, s))
  {
    hide Inv;
    BegunKeeps(w.cfg, w.links, w.sybils, s);
    ScheduledKeeps(w.cfg, w.links, w.sybils, Begun(s), 0.0, Generate);
    if Dynamic(w.cfg) {
      ScheduledKeeps(w.cfg, w.links, w.sybils, Scheduled(Begun(s), 0.0, Generate), w.cfg.perturbInterval, Perturb);
    }
  }

  lemma OpenedEvents(w: Setting, k: Mark, k': Mark)
    requires Resting(w.cfg, k.s) && w.first == k.gapsUsed <= w.n && k' == k.(s := Opened(w.cfg, k.s))
    ensures Agenda(w, k') && Poised(w, k'.s) && SameRecords(k.s, k'.s)
    ensures k'.s.timely == k.s.timely && k'.s.current == None
  {
  }

  /** A run begins in order, also after others. */
  lemma OpenedRuns(w: Setting, k: Mark, k': Mark)
    requires SettingOk(w) && Inv(w.cfg, w.links, w.sybils, k.s) && Resting(w.cfg, k.s) && Steered(w, k)
    requires Env(w.cfg, w.links, k.adj, k.s.timely) && Undirected(k.adj) && w.first == k.gapsUsed <= w.n
    requires k' == k.(s := Opened(w.cfg, k.s))
    ensures RunOk(w, k') && Poised(w, k'.s) && k'.s.timely == k.s.timely
  {
    hide Inv, Env, Undirected, SettingOk, Steered, Resting, Opened, Agenda, Poised, SameRecords;
    OpenedInv(w, k.s);
    OpenedEvents(w, k, k');
    SteeredFrame(w, k, k');
  }

  lemma EndedEvents(w: Setting, k: Mark, e: Event)
    requires w.duration <= w.end && Agenda(w, k) && HeapMatches(k.s) && Poised(w, k.s) && k.s.current == None
    requires IsLeast(k.s.events, e) && e.time > w.end
    ensures Resting(w.cfg, Discarded(k.s, e))
  {
    hide Elapsed;
  }

  /** A run that stops at an event past its end leaves the simulator ready for another. */
  lemma EndedRests(w: Setting, k: Mark, e: Event)
    requires SettingOk(w) && RunOk(w, k) && Poised(w, k.s) && IsLeast(k.s.events, e) && e.time > w.end
    ensures Resting(w.cfg, Discarded(k.s, e)) && Inv(w.cfg, w.links, w.sybils, Discarded(k.s, e))
    ensures Steered(w, k.(s := Discarded(k.s, e)))
  {
    hide Inv, Env, Undirected, Steered, Agenda, Poised, Resting, Earlier, DrawsOk, ShortestSolver, CarefulSolver,
         Connected, Elapsed;
    DiscardedKeeps(w.cfg, w.links, w.sybils, k.s, e);
    InvHeap(w.cfg, w.links, w.sybils, k.s);
    EndedEvents(w, k, e);
    SteeredFrame(w, k, k.(s := Discarded(k.s, e)));
  }

  lemma NothingRests(w: Setting, k: Mark)
    requires RunOk(w, k) && k.s.events == {}
    ensures Resting(w.cfg, k.s) && Steered(w, k) && Ended(w, k, k)
  {
  }

  lemma StillPoised(w: Setting, s: State, e: Event, s': State)
    requires Poised(w, s) && e in s.events && e.time <= w.end
    ensures Poised(w, s')
  {
  }
}
