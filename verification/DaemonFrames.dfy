/** What a step at one node of the daemon cluster leaves alone, so that steps at different nodes can be
    chained. */
module DaemonFrames {
  import opened Network
  import opened Packets
  import opened DaemonState
  import opened DaemonSafety
  import opened DaemonHonest
  import opened Daemon

  /** The share of all other nodes is the same in both worlds, and no message got lost. */
  ghost predicate Beyond(self: NodeId, w: World, w': World) {
    && (forall n: NodeId, id: nat :: n != self ==> ((n, id) in w'.deliveredIds <==> (n, id) in w.deliveredIds))
    && (forall e: Entry :: e.node != self ==> (e in w'.pending <==> e in w.pending))
    && (forall e: Entry :: e.node != self && e in w.pending && e in w'.pending ==> w'.pending[e] == w.pending[e])
    && w.frames <= w'.frames && w.receipts <= w'.receipts
  }

  lemma BeyondSame(self: NodeId, w: World, w': World)
    requires w'.deliveredIds == w.deliveredIds && w'.pending == w.pending && w.frames <= w'.frames
    requires w.receipts <= w'.receipts
    ensures Beyond(self, w, w')
  {
  }

  lemma BeyondTwice(self: NodeId, w: World, w1: World, w2: World)
    requires Beyond(self, w, w1) && Beyond(self, w1, w2)
    ensures Beyond(self, w, w2)
  {
    forall e: Entry | e.node != self && e in w.pending && e in w2.pending ensures w2.pending[e] == w.pending[e] {
      assert e in w1.pending;
    }
  }

  /** So the tables of another node still are its share. */
  lemma OthersMine(self: NodeId, n: NodeId, ids: set<nat>, pending: map<(nat, NodeId), real>, w: World, w': World)
    requires Mine(n, ids, pending, w) && Beyond(self, w, w') && n != self
    ensures Mine(n, ids, pending, w')
  {
  }

  lemma BeyondTables(self: NodeId, w: World, w': World)
    requires Beyond(self, w, w')
    ensures w.frames <= w'.frames && w.receipts <= w'.receipts
    ensures forall e: Entry :: e in w'.pending && e.node != self ==> e in w.pending
  {
  }

  lemma ForwardBeyond(env: Env, w: World, self: NodeId, p: Packet, nxt: NodeId, failed: nat, deadline: real)
    ensures Beyond(self, w, Forward(env, w, self, p, nxt, failed, deadline))
  {
    hide RecordDrop;
  }

  lemma AcceptBeyond(env: Env, w: World, p: Packet, now: real)
    ensures Beyond(p.dst, w, Accept(env, w, p, now))
  {
    hide RecordDelivery;
  }

  lemma ArriveBeyond(env: Env, w: World, self: NodeId, packet: Packet, exclude: set<NodeId>, ch: Choice)
    ensures Beyond(self, w, Arrive(env, w, self, packet, exclude, ch).0)
  {
    hide Beyond, Forward, Accept, RecordDrop, Chosen, DiverseHop;
    var p := packet.(node := self);
    if self == p.dst {
      AcceptBeyond(env, w, p, ch.now);
    }
    var q, nxt := p.(visited := p.visited + {self}), DiverseHop(env, exclude, ch);
    if nxt.Some? {
      ForwardBeyond(env, w, self, Chosen(q, exclude, ch), nxt.value, ch.failed, ch.deadline);
    }
    forall reason, r ensures Beyond(self, w, Drop(w, reason, r)) { BeyondSame(self, w, Drop(w, reason, r)); }
  }

  lemma {:induction false} CopiesBeyond(env: Env, w: World, id: nat, src: NodeId, dst: NodeId,
      copies: seq<(real, Choice)>)
    ensures Beyond(src, w, SendCopies(env, w, id, src, dst, copies).world)
  {
    hide Beyond, Arrive;
    if |copies| == 0 {
      BeyondSame(src, w, w);
    } else {
      var init, copy := copies[..|copies| - 1], copies[|copies| - 1];
      CopiesBeyond(env, w, id, src, dst, init);
      var s, p := SendCopies(env, w, id, src, dst, init), SignedCopy(env, id, src, dst, copy.0);
      var w0 := s.world.(issued := s.world.issued + {p.signature.value});
      var w1 := Arrive(env, w0, src, p, s.taken, copy.1).0;
      var w2 := w1.(stats := w1.stats.(redundantCopies := w1.stats.redundantCopies + 1));
      BeyondSame(src, s.world, w0);
      ArriveBeyond(env, w0, src, p, s.taken, copy.1);
      BeyondSame(src, w1, w2);
      BeyondTwice(src, s.world, w0, w1);
      BeyondTwice(src, w, s.world, w1);
      BeyondTwice(src, w, w1, w2);
    }
  }

  lemma CreditBeyond(env: Env, w: World, self: NodeId, r: Receipt)
    ensures Beyond(self, w, Credit(env, w, self, r))
  {
    hide IndexOf, HopAfter;
  }

  lemma {:induction false} SweepBeyond(self: NodeId, w: World, late: seq<Entry>)
    requires forall i :: 0 <= i < |late| ==> late[i].node == self
    ensures Beyond(self, w, Sweep(w, late))
  {
    if |late| > 0 {
      SweepBeyond(self, w, late[..|late| - 1]);
    }
  }

  /** The node at which an action happens. */
  ghost predicate At(a: Action, n: NodeId) {
    match a
    case Originate(_, src, _, _) => src == n
    case Receive(_, node, _, _) => node == n
    case Return(_, node, _) => node == n
    case Timeout(late) => forall i :: 0 <= i < |late| ==> late[i].node == n
    case InjectPacket(_, _) => true
    case InjectReceipt(_, _) => true
  }

  lemma ApplyBeyond(n: NodeId, w: World, a: Action)
    requires At(a, n)
    ensures Beyond(n, w, Apply(w, a))
  {
    hide Beyond;
    match a
    case Originate(env, src, dst, copies) =>
      var w0 := w.(origin := w.origin + [(src, dst)]);
      var w1 := SendCopies(env, w0, |w.origin|, src, dst, copies).world;
      CopiesBeyond(env, w0, |w.origin|, src, dst, copies);
      BeyondSame(n, w, w0);
      BeyondSame(n, w1, Generated(w1));
      BeyondTwice(n, w, w0, w1);
      BeyondTwice(n, w, w1, Generated(w1));
    case Receive(env, node, p, ch) => ArriveBeyond(env, w, node, p, {}, ch);
    case Return(env, node, r) => CreditBeyond(env, w, node, r);
    case Timeout(late) => SweepBeyond(n, w, late);
    case InjectPacket(to, p) => BeyondSame(n, w, w.(frames := w.frames + {(p, to)}));
    case InjectReceipt(to, r) => BeyondSame(n, w, w.(receipts := w.receipts + {(r, to)}));
  }

  /** Originations alone are numbered. */
  lemma ApplyNumbers(w: World, a: Action)
    ensures Apply(w, a).origin == w.origin + if a.Originate? then [(a.src, a.dst)] else []
  {
    match a
    case Originate(env, src, dst, copies) =>
      CopiesOrigin(env, w.(origin := w.origin + [(src, dst)]), |w.origin|, src, dst, copies);
    case Receive(env, node, p, ch) => ArriveOrigin(env, w, node, p, {}, ch);
    case Return(env, node, r) => CreditSame(map[], 0, env, w, node, r);
    case Timeout(late) => SweepSame(w, late);
    case InjectPacket(_, _) =>
    case InjectReceipt(_, _) =>
  }

  lemma RunSnoc(links: Adjacency, ttl: int, corrupt: set<NodeId>, acts: seq<Action>, a: Action)
    requires Run(links, ttl, corrupt, acts) && Enabled(links, ttl, corrupt, After(acts), a)
    ensures Run(links, ttl, corrupt, acts + [a]) && After(acts + [a]) == Apply(After(acts), a)
  {
    hide Enabled, Apply;
    assert (acts + [a])[..|acts|] == acts;
  }
}
