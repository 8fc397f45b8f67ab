/** A concrete simulator: with time enough its packet is delivered; without, a second run does not add up, since it
    counts what the first left in flight once more. */
module SimExamples {
  import opened Network
  import opened Packets
  import opened Graph
  import opened SimState
  import opened Arrival
  import opened SimRuns
  import opened Simulator

  const LINK := LinkMetrics(1.0, 1.0, 0.0, 1.0)

  /** No queueing time, retries, losses, traffic or dynamics. */
  const PLAIN := Config(1, 0.0, 0.0, 0.0, 0.0, 0.0, 0.0, 0.0, 0)

  function Between(): Oracle {
    Oracle(i => 0.5, i => (0, 1), i => [], i => LINK, i => 1.0, (i, adj, off, p) => Some(1))
  }

  /** Two linked nodes. */
  function Pair(): Adjacency {
    WithEdge(map[], 0, 1, LINK)
  }

  ghost predicate Example(w: Setting) {
    w.oracle == Between() && w.cfg == PLAIN && w.sybils == {} && w.duration == w.rate == 0.0 <= w.end
  }

  function First(): Packet {
    NewPacket(0, 0, 1, 0.0, 1)
  }

  /** The first event generates a packet. */
  lemma FirstStep(w: Setting, k: Mark, e: Event, k': Mark)
    requires Example(w) && k.s == Opened(PLAIN, NewState(true)) && Stepped(w, k, e, k')
    ensures k'.s == Spawned(Popped(k.s, e), First()) && k'.s.events == {Event(0.0, 1, Arrive(0))}
    ensures k'.adj == k.adj && k'.off == k.off
  {
    assert k.s.events == {Event(0.0, 0, Generate)};
  }

  lemma PairLinks()
    ensures Pair() == map[0 := map[1 := LINK], 1 := map[0 := LINK]] && Undirected(Pair())
    ensures DrawsOk(Between(), Pair()) && LatenciesNonNegative(Pair())
  {
  }

  /** The link never fails. */
  lemma NoneFailed(failed: nat, cursor: nat)
    requires TriedLink(Between(), PLAIN, {}, Pair(), 0, 1, cursor, failed)
    ensures failed == 0
  {
    PairLinks();
    assert Between().random(cursor) == 0.5;
  }

  /** The second event sends it on, over a link that takes it past the end. */
  lemma SecondStep(w: Setting, k: Mark, e: Event, k': Mark)
    requires Example(w) && k.adj == Pair() && k.off == {} && k.s.packets == [First()] && |k.s.trails| == 1
    requires k.s.events == {Event(0.0, 1, Arrive(0))} && k.s.available == map[] && Stepped(w, k, e, k')
    ensures |k'.s.packets| == |k'.s.trails| == 1
    ensures k'.s.delivered == k.s.delivered && k'.s.dropped == k.s.dropped
    ensures k'.s.events == {Event(1.0, k.s.counter, Arrive(0))} && k'.s.packets[0].node == k'.s.packets[0].dst
  {
    hide TriedLink, Reported;
    PairLinks();
    var next, failed :| ArriveMark(w, k, e, next, failed, k');
    assert next == Some(1) && Transmits(k.adj, k.off, First(), next);
    NoneFailed(failed, k.draws);
  }

  lemma OneInFlight(w: Setting, k: Mark, marks: seq<Mark>, log: seq<Event>, k': Mark)
    requires Example(w) && w.end == 0.0 && k.s == NewState(true) && k.adj == Pair() && k.off == {}
    requires RunOf(w, k, marks, log, k')
    ensures |k'.s.packets| == 1 && k'.s.delivered == [] && k'.s.dropped == []
  {
    hide Stepped, Pair, Earlier, Ended;
    assert marks[0].s.events == {Event(0.0, 0, Generate)};
    if |log| == 0 {
      NotEnded(w, marks[0], k', Event(0.0, 0, Generate));
    } else {
      FirstStep(w, marks[0], log[0], marks[1]);
      if |log| == 1 {
        NotEnded(w, marks[1], k', Event(0.0, 1, Arrive(0)));
      } else {
        SecondStep(w, marks[1], log[1], marks[2]);
        TooLate(w, marks, log, 2);
        EndsThere(w, marks[2], k');
      }
    }
  }

  lemma NotEnded(w: Setting, k: Mark, k': Mark, e: Event)
    requires e in k.s.events && (forall f :: f in k.s.events ==> f == e) && e.time <= w.end
    ensures !Ended(w, k, k')
  {
  }

  /** Where everything is past the end nothing more is handled. */
  lemma TooLate(w: Setting, marks: seq<Mark>, log: seq<Event>, i: nat)
    requires Traced(w, marks, log) && i <= |log| && forall f :: f in marks[i].s.events ==> f.time > w.end
    ensures |log| == i
  {
    hide Stepped;
    if |log| > i {
      StepsLeast(w, marks[i], log[i], marks[i + 1]);
    }
  }

  /** The third event delivers it. */
  lemma ThirdStep(w: Setting, k: Mark, e: Event, k': Mark)
    requires Stepped(w, k, e, k') && k.s.events == {Event(1.0, e.seqNo, Arrive(0))}
    requires |k.s.packets| == |k.s.trails| == 1
    requires k.s.packets[0].node == k.s.packets[0].dst
    ensures |k'.s.packets| == 1 && k'.s.delivered == k.s.delivered + [0] && k'.s.dropped == k.s.dropped
    ensures k'.s.events == {}
  {
    hide Reported, TriedLink;
    var next, failed :| ArriveMark(w, k, e, next, failed, k');
  }

  lemma OneDelivered(w: Setting, k: Mark, marks: seq<Mark>, log: seq<Event>, k': Mark)
    requires Example(w) && w.end == 1.0 && k.s == NewState(true) && k.adj == Pair() && k.off == {}
    requires RunOf(w, k, marks, log, k')
    ensures |k'.s.packets| == 1 && k'.s.delivered == [0] && k'.s.dropped == []
  {
    hide Stepped, Pair, Earlier, Ended;
    assert marks[0].s.events == {Event(0.0, 0, Generate)};
    if |log| == 0 {
      NotEnded(w, marks[0], k', Event(0.0, 0, Generate));
    } else {
      FirstStep(w, marks[0], log[0], marks[1]);
      if |log| == 1 {
        NotEnded(w, marks[1], k', Event(0.0, 1, Arrive(0)));
      } else {
        SecondStep(w, marks[1], log[1], marks[2]);
        LastSteps(w, marks, log, k');
      }
    }
  }

  lemma LastSteps(w: Setting, marks: seq<Mark>, log: seq<Event>, k': Mark)
    requires w.end == 1.0 && Traced(w, marks, log) && |log| >= 2 && Ended(w, marks[|log|], k')
    requires marks[2].s.events == {Event(1.0, 2, Arrive(0))} && |marks[2].s.packets| == |marks[2].s.trails| == 1
    requires marks[2].s.packets[0].node == marks[2].s.packets[0].dst
    ensures |k'.s.packets| == 1 && k'.s.delivered == marks[2].s.delivered + [0] && k'.s.dropped == marks[2].s.dropped
  {
    hide Stepped, Earlier, Ended;
    if |log| == 2 {
      NotEnded(w, marks[2], k', Event(1.0, 2, Arrive(0)));
    } else {
      assert log[2].seqNo == 2 by { StepsLeast(w, marks[2], log[2], marks[3]); }
      ThirdStep(w, marks[2], log[2], marks[3]);
      TooLate(w, marks, log, 3);
      EndsThere(w, marks[3], k');
    }
  }

  lemma EndsThere(w: Setting, k: Mark, k': Mark)
    requires Ended(w, k, k')
    ensures k'.s.packets == k.s.packets && k'.s.delivered == k.s.delivered && k'.s.dropped == k.s.dropped
  {
  }

  lemma StepsLeast(w: Setting, k: Mark, e: Event, k': Mark)
    requires Stepped(w, k, e, k')
    ensures e in k.s.events && e.time <= w.end
  {
  }

  /** With a drain time as long as the link's latency the packet is delivered, and nothing is left in flight. */
  method OneRun() returns (stats: EventStats)
    ensures stats.generated == 1 && stats.delivered == 1 && stats.dropped == 0 && stats.inFlight == 0
  {
    hide WithEdge, Between, Undirected, DrawsOk, Inv, Resting, RunOf, Routed, Wary, ShortestSolver, CarefulSolver,
         NobodyBlamed, InOrder, CountsOk, LatenciesNonNegative, Elapsed, P2PGraph.Valid;
    PairLinks();
    var graph := new P2PGraph();
    graph.AddEdge(0, 1, LINK);
    var sim := new EventDrivenSimulator(graph, PLAIN, Between());
    ghost var k, w := sim.At(), sim.Course(0.0, 0.0, 1.0, 0);
    ghost var marks, log;
    stats, marks, log := sim.Run(0.0, 0.0, 1.0, 0);
    OneDelivered(w, k, marks, log, sim.At());
  }

  /** One packet is still on its link when the first run ends; the second run reports it twice. */
  method TwoRuns() returns (first: EventStats, second: EventStats)
    ensures first.generated == 1 && first.delivered == first.dropped == 0 && first.inFlight == 1
    ensures second.generated != second.delivered + second.dropped + second.inFlight
  {
    hide WithEdge, Between, Undirected, DrawsOk, Inv, Resting, RunOf, Routed, Wary, ShortestSolver, CarefulSolver,
         NobodyBlamed, InOrder, CountsOk, LatenciesNonNegative, Elapsed, P2PGraph.Valid;
    PairLinks();
    var graph := new P2PGraph();
    graph.AddEdge(0, 1, LINK);
    var sim := new EventDrivenSimulator(graph, PLAIN, Between());
    ghost var k, w := sim.At(), sim.Course(0.0, 0.0, 0.0, 0);
    ghost var marks, log;
    first, marks, log := sim.Run(0.0, 0.0, 0.0, 0);
    OneInFlight(w, k, marks, log, sim.At());
    second, marks, log := sim.Run(0.0, 0.0, 0.0, sim.gapsUsed);
  }
}
