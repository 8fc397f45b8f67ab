/** Runs of the daemon cluster without an attacker: what packets in flight look like, who gets credit
    for a delivery, and exposure counts. */
module DaemonHonest {
  import opened Network
  import opened HopDistance
  import opened Packets
  import opened Sequences
  import opened DaemonState
  import opened DaemonSafety

  // ---- packets in flight -----------------------------------------------------------

  /** The recorded path and the node at hand form a walk from src whose relays are distinct and exclude
      dst; `visited` is the path as a set, and hops and TTL add up. */
  ghost predicate Walked(links: Adjacency, ttl: int, p: Packet, at: NodeId) {
    && IsPath(links, {}, p.path + [at]) && (p.path + [at])[0] == p.src
    && p.src in links && p.dst in links && p.src != p.dst
    && Distinct(p.path) && p.dst !in p.path && p.visited == Elements(p.path)
    && p.hops == |p.path| && p.hops + p.ttl == ttl && (p.hops > 0 ==> p.ttl >= 0)
    && (p.touchedTransit ==> p.touchedSybil)
  }

  ghost predicate Sealed(w: World, p: Packet) {
    Verified(p) && p.signature.value in w.issued
  }

  ghost predicate Shape(links: Adjacency, ttl: int, w: World) {
    && (forall f :: f in w.frames ==> Walked(links, ttl, f.0, f.1) && |f.0.path| > 0 && Sealed(w, f.0))
    && (forall p :: p in w.accepted ==> Walked(links, ttl, p, p.dst))
    && (forall i :: 0 <= i < |w.stats.delivered| ==> Walked(links, ttl, w.stats.delivered[i], w.stats.delivered[i].dst))
  }

  /** One more hop keeps the walk simple. */
  lemma WalkOn(links: Adjacency, ttl: int, p: Packet, self: NodeId, nxt: NodeId, q: Packet)
    requires Walked(links, ttl, p, self) && self != p.dst && self !in p.visited && p.ttl > 0
    requires nxt in Neighbors(links, self)
    requires q.path == p.path + [self] && q.src == p.src && q.dst == p.dst && q.visited == p.visited + {self}
    requires q.hops == p.hops + 1 && q.ttl == p.ttl - 1 && (q.touchedTransit ==> q.touchedSybil)
    ensures Walked(links, ttl, q, nxt)
  {
  }

  /** Adding and removing the siblings' hops leaves `visited` as it was: at the source only the source
      is in it, and no sibling took the source itself as its hop. */
  lemma ExclusionUndone(p: Packet, exclude: set<NodeId>, ch: Choice)
    requires p.visited !! exclude
    ensures Chosen(p, exclude, ch) == p
  {
  }

  lemma ForwardShape(links: Adjacency, ttl: int, env: Env, w: World, self: NodeId, p0: Packet, p: Packet, nxt: NodeId,
      failed: nat, deadline: real)
    requires Shape(links, ttl, w) && Walked(links, ttl, p0, self) && Sealed(w, p0)
    requires self != p0.dst && self !in p0.visited && p0.ttl > 0 && nxt in Neighbors(links, self)
    requires p == p0.(node := self, visited := p0.visited + {self})
    ensures Shape(links, ttl, Forward(env, w, self, p, nxt, failed, deadline))
  {
    var q := Onward(Touched(env, p, nxt), self, nxt);
    WalkOn(links, ttl, p0, self, nxt, q);
    assert |q.path| > 0;
    var w' := Forward(env, w, self, p, nxt, failed, deadline);
    assert forall f :: f in w'.frames ==> f in w.frames || f == (q, nxt);
    ForwardSame(env, w, self, p, nxt, failed, deadline);
    hide Forward, Walked, Onward, Touched;
    assert Sealed(w', q) by { assert Verified(p0); OnwardSealed(env, w, p0, p, self, nxt); }
    ShapeGrows(links, ttl, w, w', q, nxt);
  }

  lemma OnwardSealed(env: Env, w: World, p0: Packet, p: Packet, self: NodeId, nxt: NodeId)
    requires Sealed(w, p0) && p == p0.(node := self, visited := p.visited)
    ensures Sealed(w, Onward(Touched(env, p, nxt), self, nxt))
  {
  }

  lemma ForwardSame(env: Env, w: World, self: NodeId, p: Packet, nxt: NodeId, failed: nat, deadline: real)
    ensures var w' := Forward(env, w, self, p, nxt, failed, deadline);
      && w'.accepted == w.accepted && w'.stats.delivered == w.stats.delivered && w'.issued == w.issued
      && w'.receipts == w.receipts && w'.credits == w.credits && w'.origin == w.origin
  {
  }

  lemma ShapeGrows(links: Adjacency, ttl: int, w: World, w': World, q: Packet, nxt: NodeId)
    requires Shape(links, ttl, w) && w'.accepted == w.accepted && w'.stats.delivered == w.stats.delivered
    requires w'.issued == w.issued
    requires forall f :: f in w'.frames ==> f in w.frames || f == (q, nxt)
    requires Walked(links, ttl, q, nxt) && |q.path| > 0 && Sealed(w', q)
    ensures Shape(links, ttl, w')
  {
  }

  lemma AcceptShape(links: Adjacency, ttl: int, env: Env, w: World, p: Packet, now: real)
    requires Shape(links, ttl, w) && Walked(links, ttl, p, p.dst)
    ensures Shape(links, ttl, Accept(env, w, p, now))
  {
    hide Shape, Walked, EmitReceipt, RecordDelivery;
    var w1, q := w.(accepted := w.accepted + {p}), p.(latency := now - p.createdAt);
    AcceptedShape(links, ttl, w, p);
    EmitSame(env, w1, p);
    EmitIssues(env, w1, p);
    var w2 := if env.receipts then EmitReceipt(env, w1, p) else w1;
    SameShape(links, ttl, w1, w2);
    DeliveredShape(links, ttl, w2, p, now);
    var w3 := w2.(stats := RecordDelivery(w2.stats, q));
    SameShape(links, ttl, w3, w3.(deliveredIds := w3.deliveredIds + {(p.dst, p.id)}));
  }

  lemma AcceptedShape(links: Adjacency, ttl: int, w: World, p: Packet)
    requires Shape(links, ttl, w) && Walked(links, ttl, p, p.dst)
    ensures Shape(links, ttl, w.(accepted := w.accepted + {p}))
  {
    hide Walked, Verified;
  }

  lemma DeliveredShape(links: Adjacency, ttl: int, w: World, p: Packet, now: real)
    requires Shape(links, ttl, w) && Walked(links, ttl, p, p.dst)
    ensures Shape(links, ttl, w.(stats := RecordDelivery(w.stats, p.(latency := now - p.createdAt))))
  {
    var q := p.(latency := now - p.createdAt);
    assert Walked(links, ttl, q, q.dst);
    hide Walked, Verified, CountTouch;
    TouchDelivered(w.stats.(delivered := w.stats.delivered + [q]), q);
  }

  lemma EmitIssues(env: Env, w: World, p: Packet)
    ensures EmitReceipt(env, w, p).issued >= w.issued
  {
  }

  lemma DropShape(links: Adjacency, ttl: int, w: World, reason: Reason, p: Packet)
    requires Shape(links, ttl, w)
    ensures Shape(links, ttl, Drop(w, reason, p))
  {
  }

  /** A packet that may be handled here: it walked here, and it only excludes other nodes at its source. */
  ghost predicate Arriving(links: Adjacency, ttl: int, w: World, self: NodeId, p: Packet, exclude: set<NodeId>) {
    Walked(links, ttl, p, self) && Sealed(w, p) && self !in exclude && p.visited !! exclude
  }

  lemma ArriveShape(links: Adjacency, ttl: int, env: Env, w: World, self: NodeId, packet: Packet, exclude: set<NodeId>,
      ch: Choice)
    requires Shape(links, ttl, w) && EnvOk(links, ttl, env) && Arriving(links, ttl, w, self, packet, exclude)
    ensures Shape(links, ttl, Arrive(env, w, self, packet, exclude, ch).0)
  {
    hide Shape, Drop, Forward, Accept, DiverseHop, Verified;
    var p := packet.(node := self);
    assert Walked(links, ttl, p, self) && (Verified(p) <==> Verified(packet)) by { SameSeal(packet, self); }
    forall reason, q ensures Shape(links, ttl, Drop(w, reason, q)) { DropShape(links, ttl, w, reason, q); }
    hide Walked;
    if self == p.dst {
      AcceptShape(links, ttl, env, w, p, ch.now);
    } else if self !in env.off && self !in p.visited && p.ttl > 0 {
      var q := p.(visited := p.visited + {self});
      ExclusionUndone(q, exclude, ch);
      var nxt := DiverseHop(env, exclude, ch);
      if nxt.Some? && nxt.value in Neighbors(env.adj, self) {
        ForwardShape(links, ttl, env, w, self, packet, q, nxt.value, ch.failed, ch.deadline);
      }
    }
  }

  lemma SameSeal(p: Packet, self: NodeId)
    ensures Verified(p) <==> Verified(p.(node := self))
  {
  }

  lemma CopyArrives(links: Adjacency, ttl: int, env: Env, w: World, id: nat, src: NodeId, dst: NodeId, createdAt: real,
      taken: set<NodeId>)
    requires EnvOk(links, ttl, env) && src in links && dst in links && src != dst && src !in taken
    ensures var p := SignedCopy(env, id, src, dst, createdAt);
      Arriving(links, ttl, w.(issued := w.issued + {p.signature.value}), src, p, taken)
  {
  }

  /** The hop an arrival returns is a neighbour. */
  lemma HopIsNeighbor(env: Env, w: World, self: NodeId, p: Packet, exclude: set<NodeId>, ch: Choice)
    ensures var r := Arrive(env, w, self, p, exclude, ch); r.1.Some? ==> r.1.value in Neighbors(env.adj, self)
  {
  }

  lemma CopyShape(links: Adjacency, ttl: int, env: Env, s: Sending, id: nat, src: NodeId, dst: NodeId,
      copy: (real, Choice), first: bool)
    requires Shape(links, ttl, s.world) && EnvOk(links, ttl, env) && Irreflexive(links)
    requires src in links && dst in links && src != dst && src !in s.taken
    ensures var s' := SendCopy(env, s, id, src, dst, copy, first); Shape(links, ttl, s'.world) && src !in s'.taken
  {
    hide Arrive, Walked, Verified, Shape;
    var p := SignedCopy(env, id, src, dst, copy.0);
    var w0 := s.world.(issued := s.world.issued + {p.signature.value});
    SameShape(links, ttl, s.world, w0);
    CopyArrives(links, ttl, env, s.world, id, src, dst, copy.0, s.taken);
    ArriveShape(links, ttl, env, w0, src, p, s.taken, copy.1);
    HopIsNeighbor(env, w0, src, p, s.taken, copy.1);
    var w1 := Arrive(env, w0, src, p, s.taken, copy.1).0;
    SameShape(links, ttl, w1, w1.(stats := w1.stats.(redundantCopies := w1.stats.redundantCopies + 1)));
  }

  lemma {:induction false} CopiesShape(links: Adjacency, ttl: int, env: Env, w: World, id: nat, src: NodeId,
      dst: NodeId, copies: seq<(real, Choice)>)
    requires Shape(links, ttl, w) && EnvOk(links, ttl, env) && Irreflexive(links) && src in links && dst in links
    requires src != dst
    ensures var s := SendCopies(env, w, id, src, dst, copies); Shape(links, ttl, s.world) && src !in s.taken
  {
    hide SendCopy, Shape, EnvOk;
    if |copies| > 0 {
      var init := copies[..|copies| - 1];
      CopiesShape(links, ttl, env, w, id, src, dst, init);
      CopyShape(links, ttl, env, SendCopies(env, w, id, src, dst, init), id, src, dst, copies[|copies| - 1],
        |copies| == 1);
    }
  }

  lemma SameShape(links: Adjacency, ttl: int, w: World, w': World)
    requires Shape(links, ttl, w) && w'.frames == w.frames && w'.accepted == w.accepted
    requires w'.stats.delivered == w.stats.delivered
    requires w'.issued >= w.issued
    ensures Shape(links, ttl, w')
  {
  }

  // ---- who gets credit ---------------------------------------------------------------

  function HopEntry(p: Packet, j: nat): Entry
    requires j < |p.path|
  {
    Entry(p.path[j], p.id, HopAfter(p.path, j, p.dst))
  }

  /** All hops of the packet from its k-th on are credited. */
  ghost predicate Credited(w: World, p: Packet, k: nat) {
    forall j :: k <= j < |p.path| ==> HopEntry(p, j) in w.credits
  }

  /** The receipt is for an accepted packet and has come back to the i-th node of its path. */
  ghost predicate ReceiptAt(w: World, r: Receipt, to: NodeId, p: Packet, i: nat) {
    p in w.accepted && r == ReceiptOf(p) && i < |p.path| && p.path[i] == to && Credited(w, p, i + 1)
  }

  /** The credit is for the i-th hop of an accepted packet, all of whose later hops are credited too. */
  ghost predicate CreditAt(w: World, e: Entry, p: Packet, i: nat) {
    p in w.accepted && Verified(p) && i < |p.path| && e == HopEntry(p, i) && Credited(w, p, i)
  }

  ghost predicate Traced(w: World) {
    && (forall p :: p in w.accepted ==> Verified(p))
    && (forall r :: r in w.receipts ==> exists p, i: nat :: ReceiptAt(w, r.0, r.1, p, i))
    && (forall e :: e in w.credits ==> exists p, i: nat :: CreditAt(w, e, p, i))
  }

  /** More acceptances and credits take none away. */
  lemma TraceGrows(w: World, w': World)
    requires Traced(w) && w'.accepted >= w.accepted && w'.credits >= w.credits
    requires forall p :: p in w'.accepted ==> Verified(p)
    requires forall r :: r in w'.receipts && r !in w.receipts ==> exists p, i: nat :: ReceiptAt(w', r.0, r.1, p, i)
    requires forall e :: e in w'.credits && e !in w.credits ==> exists p, i: nat :: CreditAt(w', e, p, i)
    ensures Traced(w')
  {
    hide ReceiptOf, Verified, HopEntry;
    forall r | r in w'.receipts ensures exists p, i: nat :: ReceiptAt(w', r.0, r.1, p, i) {
      if r in w.receipts {
        var p, i: nat :| ReceiptAt(w, r.0, r.1, p, i);
        assert ReceiptAt(w', r.0, r.1, p, i);
      }
    }
    forall e | e in w'.credits ensures exists p, i: nat :: CreditAt(w', e, p, i) {
      if e in w.credits {
        var p, i: nat :| CreditAt(w, e, p, i);
        assert CreditAt(w', e, p, i);
      }
    }
  }

  lemma AcceptTraced(env: Env, w: World, p: Packet, now: real)
    requires Traced(w) && Verified(p)
    ensures Traced(Accept(env, w, p, now))
  {
    var w' := Accept(env, w, p, now);
    forall r | r in w'.receipts && r !in w.receipts ensures exists q, i: nat :: ReceiptAt(w', r.0, r.1, q, i) {
      assert ReceiptAt(w', r.0, r.1, p, |p.path| - 1);
    }
    hide Accept, CreditAt, ReceiptAt, Verified;
    TraceGrows(w, w');
  }

  lemma ArriveTraced(env: Env, w: World, self: NodeId, packet: Packet, exclude: set<NodeId>, ch: Choice)
    requires Traced(w)
    ensures Traced(Arrive(env, w, self, packet, exclude, ch).0)
  {
    var p := packet.(node := self);
    var w' := Arrive(env, w, self, packet, exclude, ch).0;
    if self == p.dst && Verified(p) {
      hide Arrive, Traced, Accept;
      AcceptTraced(env, w, p, ch.now);
      assert w' == Accept(env, w, p, ch.now) by { ArriveAtDst(env, w, self, packet, exclude, ch); }
    } else {
      ArriveSame(env, w, self, packet, exclude, ch);
      hide Arrive, CreditAt, ReceiptAt, Verified;
      TraceGrows(w, w');
    }
  }

  lemma ArriveAtDst(env: Env, w: World, self: NodeId, packet: Packet, exclude: set<NodeId>, ch: Choice)
    requires self == packet.dst && Verified(packet.(node := self))
    ensures Arrive(env, w, self, packet, exclude, ch) == (Accept(env, w, packet.(node := self), ch.now), None)
  {
  }

  /** An arrival that is not an acceptance concerns neither acceptances, receipts nor credits. */
  lemma ArriveSame(env: Env, w: World, self: NodeId, packet: Packet, exclude: set<NodeId>, ch: Choice)
    requires !(self == packet.dst && Verified(packet.(node := self)))
    ensures var w' := Arrive(env, w, self, packet, exclude, ch).0;
      w'.accepted == w.accepted && w'.receipts == w.receipts && w'.credits == w.credits
  {
  }

  lemma SameTraced(w: World, w': World)
    requires Traced(w) && w'.accepted == w.accepted && w'.receipts == w.receipts && w'.credits == w.credits
    ensures Traced(w')
  {
    hide CreditAt, ReceiptAt, Verified;
    TraceGrows(w, w');
  }

  lemma {:induction false} CopiesTraced(env: Env, w: World, id: nat, src: NodeId, dst: NodeId,
      copies: seq<(real, Choice)>)
    requires Traced(w)
    ensures Traced(SendCopies(env, w, id, src, dst, copies).world)
  {
    hide Arrive, Traced;
    if |copies| > 0 {
      var init, copy := copies[..|copies| - 1], copies[|copies| - 1];
      CopiesTraced(env, w, id, src, dst, init);
      var s, p := SendCopies(env, w, id, src, dst, init), SignedCopy(env, id, src, dst, copy.0);
      var w0 := s.world.(issued := s.world.issued + {p.signature.value});
      SameTraced(s.world, w0);
      ArriveTraced(env, w0, src, p, s.taken, copy.1);
      var w1 := Arrive(env, w0, src, p, s.taken, copy.1).0;
      SameTraced(w1, w1.(stats := w1.stats.(redundantCopies := w1.stats.redundantCopies + 1)));
    }
  }

  /** On a path without repetition a node has one place. */
  lemma {:induction false} IndexUnique(path: seq<NodeId>, i: nat)
    requires Distinct(path) && i < |path|
    ensures IndexOf(path, path[i]) == Some(i)
  {
    if i > 0 {
      IndexUnique(path[1..], i - 1);
    }
  }

  /** A returning receipt credits the hop before the ones already credited, and goes one node back. */
  lemma CreditTraced(links: Adjacency, ttl: int, env: Env, w: World, self: NodeId, r: Receipt)
    requires Traced(w) && (r, self) in w.receipts && forall p :: p in w.accepted ==> Distinct(p.path)
    ensures Traced(Credit(env, w, self, r))
  {
    var p, i: nat :| ReceiptAt(w, r, self, p, i);
    IndexUnique(p.path, i);
    var e := HopEntry(p, i);
    if e in w.pending {
      var w1 := Confirm(w, e);
      assert CreditAt(w1, e, p, i);
      hide CreditAt;
      TraceGrows(w, w1);
      if i > 0 {
        var w2 := SendReceipt(env, w1, r, p.path[i - 1]);
        assert ReceiptAt(w2, r, p.path[i - 1], p, i - 1);
        SentTraced(env, w1, r, p.path[i - 1], p, i - 1);
      }
    }
  }

  /** Each relay of a receipt goes to the node just before the relaying one on the accepted path. */
  lemma RelayGoesBack(links: Adjacency, ttl: int, env: Env, w: World, self: NodeId, r: Receipt, m: (Receipt, NodeId))
    requires Honest(links, ttl, w) && (r, self) in w.receipts && m in Credit(env, w, self, r).receipts
    requires m !in w.receipts
    ensures exists p, i: nat :: ReceiptAt(w, r, self, p, i) && i > 0 && m == (r, p.path[i - 1])
  {
    var p, i: nat :| ReceiptAt(w, r, self, p, i);
    assert Distinct(p.path) by { WalkedDistinct(links, ttl, p); }
    IndexUnique(p.path, i);
    hide Honest;
  }

  lemma SentTraced(env: Env, w: World, r: Receipt, to: NodeId, p: Packet, i: nat)
    requires Traced(w) && ReceiptAt(w, r, to, p, i)
    ensures Traced(SendReceipt(env, w, r, to))
  {
    var w' := SendReceipt(env, w, r, to);
    assert ReceiptAt(w', r, to, p, i);
    hide CreditAt, ReceiptAt, Verified;
    TraceGrows(w, w');
  }

  // ---- exposure counts -------------------------------------------------------------------

  /** Only originated packets were counted as touched, transit touches among the touches, and nobody
      saw a bad signature. */
  ghost predicate Exposed(w: World) {
    && (forall id :: id in w.stats.sybilIds ==> id < |w.origin|) && w.stats.transitIds <= w.stats.sybilIds
    && BadSignature !in w.stats.dropped
  }

  lemma RecordExposed(w: World, reason: Reason, p: Packet)
    requires Exposed(w) && p.id < |w.origin| && (p.touchedTransit ==> p.touchedSybil)
    ensures reason != BadSignature ==> Exposed(Drop(w, reason, p))
    ensures Exposed(w.(stats := RecordDelivery(w.stats, p)))
  {
  }

  lemma SameExposed(w: World, w': World)
    requires Exposed(w) && |w'.origin| >= |w.origin|
    requires w'.stats.sybilIds == w.stats.sybilIds && w'.stats.transitIds == w.stats.transitIds
    requires w'.stats.dropped == w.stats.dropped
    ensures Exposed(w')
  {
  }

  lemma ForwardExposed(env: Env, w: World, self: NodeId, p: Packet, nxt: NodeId, failed: nat, deadline: real)
    requires Exposed(w) && p.id < |w.origin| && (p.touchedTransit ==> p.touchedSybil)
    ensures Exposed(Forward(env, w, self, p, nxt, failed, deadline))
  {
    hide Exposed, Drop;
    var w1 := w.(stats := Retried(w.stats, failed + if failed <= env.retries then 1 else 0));
    var q := Touched(env, p, nxt);
    SameExposed(w, w1);
    RecordExposed(w, NodeDown, p);
    RecordExposed(w1, if nxt in env.sybils then SybilDrop else LinkLoss, q);
    if nxt !in env.off && failed <= env.retries {
      SameExposed(w1, Forward(env, w, self, p, nxt, failed, deadline));
    }
  }

  lemma AcceptExposed(env: Env, w: World, p: Packet, now: real)
    requires Exposed(w) && p.id < |w.origin| && (p.touchedTransit ==> p.touchedSybil)
    ensures Exposed(Accept(env, w, p, now))
  {
    hide Exposed, RecordDelivery, EmitReceipt;
    var w1, q := w.(accepted := w.accepted + {p}), p.(latency := now - p.createdAt);
    EmitSame(env, w1, p);
    var w2 := if env.receipts then EmitReceipt(env, w1, p) else w1;
    SameExposed(w, w2);
    RecordExposed(w2, NoRoute, q);
    if (p.dst, p.id) !in w2.deliveredIds {
      SameExposed(w2.(stats := RecordDelivery(w2.stats, q)), Accept(env, w, p, now));
    }
  }

  lemma ArriveExposed(env: Env, w: World, self: NodeId, packet: Packet, exclude: set<NodeId>, ch: Choice)
    requires Exposed(w) && packet.id < |w.origin| && (packet.touchedTransit ==> packet.touchedSybil) && Verified(packet)
    ensures Exposed(Arrive(env, w, self, packet, exclude, ch).0)
  {
    hide Exposed, Drop, Forward, Accept, DiverseHop, Verified;
    SameSeal(packet, self);
    var p := packet.(node := self);
    AcceptExposed(env, w, p, ch.now);
    var q, nxt := Chosen(p.(visited := p.visited + {self}), exclude, ch), DiverseHop(env, exclude, ch);
    forall reason | reason != BadSignature ensures Exposed(Drop(w, reason, p)) && Exposed(Drop(w, reason, q)) {
      RecordExposed(w, reason, p);
      RecordExposed(w, reason, q);
    }
    if nxt.Some? {
      ForwardExposed(env, w, self, q, nxt.value, ch.failed, ch.deadline);
    }
  }

  lemma {:induction false} CopiesExposed(env: Env, w: World, id: nat, src: NodeId, dst: NodeId,
      copies: seq<(real, Choice)>)
    requires Exposed(w) && id < |w.origin|
    ensures Exposed(SendCopies(env, w, id, src, dst, copies).world)
  {
    hide Arrive, Exposed;
    if |copies| > 0 {
      var init, copy := copies[..|copies| - 1], copies[|copies| - 1];
      CopiesExposed(env, w, id, src, dst, init);
      CopiesOrigin(env, w, id, src, dst, init);
      var s, p := SendCopies(env, w, id, src, dst, init), SignedCopy(env, id, src, dst, copy.0);
      var w0 := s.world.(issued := s.world.issued + {p.signature.value});
      SameExposed(s.world, w0);
      ArriveExposed(env, w0, src, p, s.taken, copy.1);
      ArriveOrigin(env, w0, src, p, s.taken, copy.1);
      var w1 := Arrive(env, w0, src, p, s.taken, copy.1).0;
      SameExposed(w1, w1.(stats := w1.stats.(redundantCopies := w1.stats.redundantCopies + 1)));
    }
  }

  // ---- theorems about honest runs ----------------------------------------------------------

  ghost predicate Honest(links: Adjacency, ttl: int, w: World) {
    Auth({}, w) && Shape(links, ttl, w) && Traced(w) && Exposed(w)
  }

  lemma {:induction false} SweepSame(w: World, late: seq<Entry>)
    ensures var w' := Sweep(w, late);
      && w'.frames == w.frames && w'.receipts == w.receipts && w'.accepted == w.accepted && w'.credits == w.credits
      && w'.issued == w.issued && w'.origin == w.origin && w'.stats.delivered == w.stats.delivered
      && w'.stats.sybilIds == w.stats.sybilIds && w'.stats.transitIds == w.stats.transitIds
      && w'.stats.dropped == w.stats.dropped
  {
    if |late| > 0 {
      SweepSame(w, late[..|late| - 1]);
    }
  }

  lemma ApplyHonest(links: Adjacency, ttl: int, w: World, a: Action)
    requires Honest(links, ttl, w) && Enabled(links, ttl, {}, w, a) && !a.InjectPacket? && !a.InjectReceipt?
    requires Irreflexive(links)
    ensures Honest(links, ttl, Apply(w, a))
  {
    ApplyAuth(links, ttl, {}, w, a);
    match a
    case Originate(env, src, dst, copies) =>
      hide Auth, Shape, Traced, Exposed, SendCopies;
      var w0 := w.(origin := w.origin + [(src, dst)]);
      SameShape(links, ttl, w, w0);
      SameTraced(w, w0);
      SameExposed(w, w0);
      CopiesShape(links, ttl, env, w0, |w.origin|, src, dst, copies);
      CopiesTraced(env, w0, |w.origin|, src, dst, copies);
      CopiesExposed(env, w0, |w.origin|, src, dst, copies);
      var w1 := SendCopies(env, w0, |w.origin|, src, dst, copies).world;
      SameShape(links, ttl, w1, Generated(w1));
      SameTraced(w1, Generated(w1));
      SameExposed(w1, Generated(w1));
    case Receive(env, node, p, ch) =>
      assert Walked(links, ttl, p, node) && Sealed(w, p) by { var f := (p, node); assert f in w.frames; }
      VerifiedOriginated({}, w, p);
      hide Auth, Shape, Traced, Exposed, Arrive;
      ArriveShape(links, ttl, env, w, node, p, {}, ch);
      ArriveTraced(env, w, node, p, {}, ch);
      ArriveExposed(env, w, node, p, {}, ch);
    case Return(env, node, r) =>
      hide Auth, Traced, Walked, IndexOf;
      assert forall p :: p in w.accepted ==> Distinct(p.path) by {
        forall p | p in w.accepted ensures Distinct(p.path) { WalkedDistinct(links, ttl, p); }
      }
      hide Shape, Exposed;
      CreditTraced(links, ttl, env, w, node, r);
      CreditSame(links, ttl, env, w, node, r);
      SameShape(links, ttl, w, Apply(w, a));
      SameExposed(w, Apply(w, a));
    case Timeout(late) =>
      hide Auth, Shape, Traced, Exposed, Sweep;
      SweepSame(w, late);
      SameShape(links, ttl, w, Sweep(w, late));
      SameTraced(w, Sweep(w, late));
      SameExposed(w, Sweep(w, late));
  }

  lemma WalkedDistinct(links: Adjacency, ttl: int, p: Packet)
    requires Walked(links, ttl, p, p.dst)
    ensures Distinct(p.path)
  {
  }

  lemma CreditSame(links: Adjacency, ttl: int, env: Env, w: World, self: NodeId, r: Receipt)
    ensures var w' := Credit(env, w, self, r);
      && w'.frames == w.frames && w'.accepted == w.accepted && w'.issued == w.issued && w'.origin == w.origin
      && w'.stats.delivered == w.stats.delivered && w'.stats.sybilIds == w.stats.sybilIds
      && w'.stats.transitIds == w.stats.transitIds && w'.stats.dropped == w.stats.dropped
  {
  }

  /** Every honest run over a topology without self-loops stays in order. */
  lemma {:induction false} RunHonest(links: Adjacency, ttl: int, acts: seq<Action>)
    requires Run(links, ttl, {}, acts) && HonestRun(acts) && Irreflexive(links)
    ensures Honest(links, ttl, After(acts))
  {
    if |acts| > 0 {
      var init, a := acts[..|acts| - 1], acts[|acts| - 1];
      RunHonest(links, ttl, init);
      hide Honest, Enabled, Apply;
      ApplyHonest(links, ttl, After(init), a);
    }
  }

  /** Receipt provenance: a credit of next hop m to node n is for a correctly signed packet that its
      destination accepted, whose path has n directly followed by m (or n last, m the destination),
      and the credited hops of that path reach from n to its end. */
  lemma Provenance(links: Adjacency, ttl: int, acts: seq<Action>, e: Entry)
    requires Run(links, ttl, {}, acts) && HonestRun(acts) && Irreflexive(links) && e in After(acts).credits
    ensures exists p, i: nat :: CreditAt(After(acts), e, p, i) && Walked(links, ttl, p, p.dst)
  {
    RunHonest(links, ttl, acts);
    var p, i: nat :| CreditAt(After(acts), e, p, i);
  }

  /** Exposure counts are comparable across runs: transit touches, touches and generated packets. */
  lemma ExposureBounds(links: Adjacency, ttl: int, acts: seq<Action>)
    requires Run(links, ttl, {}, acts) && HonestRun(acts) && Irreflexive(links)
    ensures var st := After(acts).stats;
      st.transitTouched <= st.sybilTouched <= st.generated && BadSignature !in st.dropped
  {
    RunHonest(links, ttl, acts);
    RunSafe(links, ttl, {}, acts);
    var w := After(acts);
    IdSetBelow(w.stats.sybilIds, |w.origin|);
    SubsetSize(w.stats.transitIds, w.stats.sybilIds);
  }

  /** A packet in flight, and a delivered one, has taken a simple walk no longer than TTL and network allow. */
  lemma WalkBounds(links: Adjacency, ttl: int, acts: seq<Action>, p: Packet, at: NodeId)
    requires Run(links, ttl, {}, acts) && HonestRun(acts) && Irreflexive(links) && Undirected(links) && ttl >= 0
    requires (p, at) in After(acts).frames || (p in After(acts).stats.delivered && at == p.dst)
    ensures Walked(links, ttl, p, at) && p.hops <= ttl && p.hops <= |links| - 1 && |p.visited| == p.hops
  {
    RunHonest(links, ttl, acts);
    var w := After(acts);
    if (p, at) in w.frames {
      var f := (p, at);
      assert f in w.frames;
    }
    RelayBound(links, p.path + [at], p.path, p.dst);
    DistinctSize(p.path);
  }
}
