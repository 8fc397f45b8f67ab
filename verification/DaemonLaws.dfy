/** What the steps of the daemon cluster come to, in terms of messages, verdicts and counters: when a packet is
    delivered, why it is dropped, what goes on the wire, and how a receipt travels all the way back. */
module DaemonLaws {
  import opened Network
  import opened Packets
  import opened Sequences
  import opened DaemonState
  import opened DaemonHonest

  // ---- messages ------------------------------------------------------------------------

  /** The packet leaves a node for the next one: q is p with one more node on its path, one more hop, one less to
      live, and what it has been exposed to by then. */
  predicate Leaves(p: Packet, q: Packet, self: NodeId, nxt: NodeId, sybils: set<NodeId>) {
    q == p.(node := self, visited := q.visited, path := p.path + [self], hops := p.hops + 1, ttl := p.ttl - 1,
            touchedSybil := p.touchedSybil || nxt in sybils,
            touchedTransit := p.touchedTransit || (nxt in sybils && nxt != p.dst),
            lastFrom := Some(self), lastNeighbor := Some(nxt))
  }

  lemma OnwardLeaves(env: Env, p: Packet, self: NodeId, nxt: NodeId)
    requires p.node == self
    ensures var q := Onward(Touched(env, p, nxt), self, nxt);
      Leaves(p, q, self, nxt, env.sybils) && q.visited == p.visited
  {
  }

  /** Choosing a hop changes only what counts as visited, and not even that for a packet that was at no sibling's
      hop. */
  lemma ChosenLeaves(p: Packet, exclude: set<NodeId>, ch: Choice, self: NodeId, nxt: NodeId, sybils: set<NodeId>)
    ensures var p' := Chosen(p, exclude, ch);
      && (forall q :: Leaves(p', q, self, nxt, sybils) ==> Leaves(p, q, self, nxt, sybils))
      && (exclude !! p.visited ==> p'.visited == p.visited) && p'.id == p.id
  {
  }

  /** Arriving changes only where the packet is, and what it has visited. */
  lemma ArrivedLeaves(p: Packet, self: NodeId, nxt: NodeId, sybils: set<NodeId>)
    ensures forall q :: Leaves(p.(node := self, visited := p.visited + {self}), q, self, nxt, sybils) ==>
      Leaves(p, q, self, nxt, sybils)
  {
  }

  /** The receipt of a packet: its signed fields and its path, signed by its destination. */
  function ProofOf(p: Packet): Receipt {
    var body := Body(p.id, p.src, p.dst, p.createdAt);
    Receipt(body, p.path, Some(Signed(p.dst, body)))
  }

  /** The destination has signed the receipt, and the node is on its path, for the first time at position i. */
  predicate Proves(r: Receipt, n: NodeId, i: nat) {
    r.signature == Some(Signed(r.body.dst, r.body)) && i < |r.path| && r.path[i] == n && n !in r.path[..i]
  }

  /** A receipt nobody vouches for, or that never came this way, does nothing. */
  lemma ProvesNothing(env: Env, w: World, r: Receipt, n: NodeId)
    requires !Genuine(r) || n !in r.path
    ensures (forall i: nat :: !Proves(r, n, i)) && Settles(w, n, r) == None && Credit(env, w, n, r) == w
  {
    hide SendReceipt, Confirm;
  }

  lemma ProvesHop(env: Env, w: World, r: Receipt, n: NodeId, i: nat)
    requires Genuine(r) && IndexOf(r.path, n) == Some(i)
    ensures var e := Entry(n, r.body.id, HopAfter(r.path, i, r.body.dst));
      && Settles(w, n, r) == (if e in w.pending then Some(e) else None)
      && Credit(env, w, n, r) == if e !in w.pending then w
           else if i > 0 then SendReceipt(env, Confirm(w, e), r, r.path[i - 1]) else Confirm(w, e)
    ensures forall j: nat :: Proves(r, n, j) <==> j == i
  {
    hide SendReceipt, Confirm, HopAfter;
    FirstOnly(r, n, i);
  }

  lemma FirstOnly(r: Receipt, n: NodeId, i: nat)
    requires i < |r.path| && r.path[i] == n && n !in r.path[..i]
    ensures forall j: nat :: Proves(r, n, j) ==> j == i
    ensures Genuine(r) ==> Proves(r, n, i)
  {
    forall j: nat | Proves(r, n, j) ensures j == i {
      assert forall k :: 0 <= k < i ==> r.path[..i][k] == r.path[k];
      assert forall k :: 0 <= k < j ==> r.path[..j][k] == r.path[k];
    }
  }

  // ---- arrivals -------------------------------------------------------------------------

  function Drops(st: Stats, reason: Reason): nat {
    if reason in st.dropped then st.dropped[reason] else 0
  }

  /** The source has signed the packet as it is. */
  predicate SignedBySource(p: Packet) {
    p.signature == Some(Signed(p.src, Body(p.id, p.src, p.dst, p.createdAt)))
  }

  /** Why a node gives a packet up, if it does; `next` is the link it chose. */
  predicate GivesUpFor(env: Env, self: NodeId, p: Packet, next: Option<NodeId>, failed: nat, reason: Reason) {
    if self == p.dst then reason == BadSignature && !SignedBySource(p)
    else if self in env.off then reason == NodeDown
    else if self in p.visited then reason == Loop
    else if p.ttl <= 0 then reason == TtlExpired
    else if next.None? then reason == NoRoute
    else if next.value in env.off then reason == NodeDown
    else failed > env.retries && reason == if next.value in env.sybils then SybilDrop else LinkLoss
  }

  /** The packet leaves over a live link. */
  predicate GoesOut(env: Env, self: NodeId, p: Packet, next: Option<NodeId>, failed: nat) {
    && self != p.dst && self !in env.off && self !in p.visited && p.ttl > 0
    && next.Some? && next.value !in env.off && failed <= env.retries
  }

  lemma OneReason(env: Env, self: NodeId, p: Packet, next: Option<NodeId>, failed: nat)
    requires self != p.dst
    ensures GoesOut(env, self, p, next, failed) <==> forall r :: !GivesUpFor(env, self, p, next, failed, r)
  {
    var reason :=
      if self in env.off then NodeDown
      else if self in p.visited then Loop
      else if p.ttl <= 0 then TtlExpired
      else if next.None? then NoRoute
      else if next.value in env.off then NodeDown
      else if next.value in env.sybils then SybilDrop else LinkLoss;
    assert !GoesOut(env, self, p, next, failed) ==> GivesUpFor(env, self, p, next, failed, reason);
  }

  lemma DropCounts(w: World, p: Packet, reason: Reason)
    ensures var w' := Drop(w, reason, p);
      && w'.stats.delivered == w.stats.delivered && w' == w.(stats := w'.stats)
      && forall r :: Drops(w'.stats, r) == Drops(w.stats, r) + if r == reason then 1 else 0
  {
  }

  lemma ForwardLaw(env: Env, w: World, self: NodeId, p: Packet, nxt: NodeId, failed: nat, deadline: real)
    requires p.node == self
    ensures var w' := Forward(env, w, self, p, nxt, failed, deadline);
      && w'.stats.delivered == w.stats.delivered && w'.deliveredIds == w.deliveredIds
      && (forall r :: Drops(w'.stats, r) == Drops(w.stats, r) +
            if (nxt in env.off && r == NodeDown)
               || (nxt !in env.off && failed > env.retries && r == (if nxt in env.sybils then SybilDrop else LinkLoss))
            then 1 else 0)
      && (if nxt in env.off || failed > env.retries then w'.frames == w.frames && w'.pending == w.pending
          else && (exists q :: w'.frames == w.frames + {(q, nxt)} && Leaves(p, q, self, nxt, env.sybils)
                     && q.visited == p.visited)
               && w'.pending == if env.receipts then w.pending[Entry(self, p.id, nxt) := deadline] else w.pending)
  {
    hide Drop, Await, Touched, Onward;
    if nxt in env.off {
      DropCounts(w, p, NodeDown);
    } else {
      var ok := failed <= env.retries;
      var w1 := w.(stats := Retried(w.stats, failed + if ok then 1 else 0));
      DropCounts(w1, Touched(env, p, nxt), if nxt in env.sybils then SybilDrop else LinkLoss);
      AwaitPends(w1, Entry(self, p.id, nxt), deadline);
      OnwardLeaves(env, p, self, nxt);
    }
  }

  /** Every try but the first is a retransmission. A packet given up on the way counts with what it has been exposed to
      by then, each id once. */
  lemma ForwardCounts(env: Env, w: World, self: NodeId, p: Packet, nxt: NodeId, failed: nat, deadline: real)
    requires failed <= env.retries + 1
    ensures var st := Forward(env, w, self, p, nxt, failed, deadline).stats;
      var lost := nxt !in env.off && failed > env.retries;
      && st.retransmissions == w.stats.retransmissions
           + (if nxt in env.off then 0 else if lost then env.retries else failed)
      && st.sybilIds == w.stats.sybilIds
           + (if (nxt in env.off && p.touchedSybil) || (lost && (p.touchedSybil || nxt in env.sybils)) then {p.id} else {})
      && st.transitIds == w.stats.transitIds
           + (if (nxt in env.off && p.touchedTransit)
                 || (lost && (p.touchedTransit || (nxt in env.sybils && nxt != p.dst))) then {p.id} else {})
  {
    hide Onward, Await;
    if nxt in env.off {
      DropExposes(w, NodeDown, p);
    } else {
      var w1 := w.(stats := Retried(w.stats, failed + if failed <= env.retries then 1 else 0));
      DropExposes(w1, if nxt in env.sybils then SybilDrop else LinkLoss, Touched(env, p, nxt));
      AwaitPends(w1, Entry(self, p.id, nxt), deadline);
    }
  }

  lemma DropExposes(w: World, reason: Reason, p: Packet)
    ensures var st := Drop(w, reason, p).stats;
      && st.retransmissions == w.stats.retransmissions
      && st.sybilIds == w.stats.sybilIds + (if p.touchedSybil then {p.id} else {})
      && st.transitIds == w.stats.transitIds + (if p.touchedTransit then {p.id} else {})
  {
  }

  lemma AwaitPends(w: World, e: Entry, deadline: real)
    ensures var w' := Await(w, e, deadline);
      && w'.pending == w.pending[e := deadline] && w'.stats == w.stats && w'.frames == w.frames
      && w'.deliveredIds == w.deliveredIds
  {
  }

  /** A packet at its destination: with the source's signature it is delivered if it is the first of its id, and
      answered with a receipt in any case; without, it is dropped. */
  lemma ArrivesHome(env: Env, w: World, packet: Packet, exclude: set<NodeId>, ch: Choice)
    ensures var self, (w', next) := packet.dst, Arrive(env, w, packet.dst, packet, exclude, ch);
      && next == None && w'.frames == w.frames && w'.pending == w.pending && w'.credits == w.credits
      && (SignedBySource(packet) ==>
            && (self, packet.id) in w'.deliveredIds
            && w'.stats.delivered == w.stats.delivered + (
                 if (self, packet.id) in w.deliveredIds then []
                 else [packet.(node := self, latency := ch.now - packet.createdAt)])
            && (forall r :: Drops(w'.stats, r) == Drops(w.stats, r))
            && w'.receipts == w.receipts + (
                 if env.receipts && |packet.path| > 0 && packet.path[|packet.path| - 1] !in env.off
                 then {(ProofOf(packet), packet.path[|packet.path| - 1])} else {}))
      && (!SignedBySource(packet) ==>
            && w'.stats.delivered == w.stats.delivered && w'.receipts == w.receipts
            && forall r :: Drops(w'.stats, r) == Drops(w.stats, r) + if r == BadSignature then 1 else 0)
  {
    hide Drop, CountTouch;
    var p := packet.(node := packet.dst);
    DropCounts(w, p, BadSignature);
    forall st: Stats, q: Packet
      ensures CountTouch(st, q).delivered == st.delivered && CountTouch(st, q).dropped == st.dropped
    {
      TouchKeeps(st, q);
    }
  }

  lemma TouchKeeps(st: Stats, p: Packet)
    ensures CountTouch(st, p).delivered == st.delivered && CountTouch(st, p).dropped == st.dropped
  {
  }

  /** A packet anywhere else is given up for one reason, or goes out over the link the node chose. */
  lemma ArrivesElsewhere(env: Env, w: World, self: NodeId, packet: Packet, exclude: set<NodeId>, ch: Choice)
    requires self != packet.dst
    ensures var (w', next) := Arrive(env, w, self, packet, exclude, ch);
      && w'.stats.delivered == w.stats.delivered && w'.deliveredIds == w.deliveredIds
      && (forall r :: Drops(w'.stats, r) == Drops(w.stats, r) +
            if GivesUpFor(env, self, packet, next, ch.failed, r) then 1 else 0)
      && (GoesOut(env, self, packet, next, ch.failed) <==>
          forall r :: !GivesUpFor(env, self, packet, next, ch.failed, r))
      && (if GoesOut(env, self, packet, next, ch.failed)
          then && (exists q :: w'.frames == w.frames + {(q, next.value)} &&
                     Leaves(packet, q, self, next.value, env.sybils))
               && w'.pending ==
                  if env.receipts then w.pending[Entry(self, packet.id, next.value) := ch.deadline] else w.pending
          else w'.frames == w.frames && w'.pending == w.pending)
  {
    hide Drop, Forward, DiverseHop, Leaves;
    OneReason(env, self, packet, Arrive(env, w, self, packet, exclude, ch).1, ch.failed);
    var p := packet.(node := self);
    DropCounts(w, p, NodeDown);
    DropCounts(w, p, Loop);
    DropCounts(w, p, TtlExpired);
    if self !in env.off && self !in p.visited && p.ttl > 0 {
      var q := Chosen(p.(visited := p.visited + {self}), exclude, ch);
      DropCounts(w, q, NoRoute);
      var hop := DiverseHop(env, exclude, ch);
      if hop.Some? {
        ForwardLaw(env, w, self, q, hop.value, ch.failed, ch.deadline);
        ChosenLeaves(p.(visited := p.visited + {self}), exclude, ch, self, hop.value, env.sybils);
        ArrivedLeaves(packet, self, hop.value, env.sybils);
      }
    }
  }

  // ---- diverse hops ---------------------------------------------------------------------

  /** A redundant copy takes another hop than its siblings when the solver has one that is at most the tolerance riskier
      than the natural one, and never a riskier one than that. */
  lemma DiverseWithinTolerance(env: Env, exclude: set<NodeId>, ch: Choice)
    ensures var hop := DiverseHop(env, exclude, ch);
      && (hop != ch.natural ==>
            && hop == ch.diverse && hop.Some? && ch.natural.Some? && ch.natural.value in exclude
            && (ch.risk.Some? ==> ch.risk.value(hop.value) <= ch.risk.value(ch.natural.value) + env.tolerance))
      && (ch.natural.Some? && ch.natural.value in exclude && ch.diverse.Some? && hop != ch.diverse ==>
            ch.risk.Some? && ch.risk.value(ch.diverse.value) > ch.risk.value(hop.value) + env.tolerance)
  {
  }

  // ---- receipts -------------------------------------------------------------------------

  /** A receipt that the destination signed settles the open verdict on the hop this node took, and goes one node
      back if that node is up. */
  lemma ReceiptSettles(env: Env, w: World, self: NodeId, r: Receipt, i: nat)
    requires Proves(r, self, i)
    requires Entry(self, r.body.id, if i + 1 < |r.path| then r.path[i + 1] else r.body.dst) in w.pending
    ensures var e := Entry(self, r.body.id, if i + 1 < |r.path| then r.path[i + 1] else r.body.dst);
      var w' := Credit(env, w, self, r);
      && w'.pending == w.pending - {e} && w'.credits == w.credits + {e} && w'.confirmed == w.confirmed + multiset{e}
      && w'.stats == w.stats.(receiptsConfirmed := w.stats.receiptsConfirmed + 1)
      && w'.receipts == w.receipts + if i > 0 && r.path[i - 1] !in env.off then {(r, r.path[i - 1])} else {}
  {
    FirstOnly(r, self, i);
    assert Proves(r, self, IndexOf(r.path, self).value);
  }

  /** Nothing else settles anything. */
  lemma ReceiptIgnored(env: Env, w: World, self: NodeId, r: Receipt)
    requires forall i: nat :: Proves(r, self, i) ==>
      Entry(self, r.body.id, if i + 1 < |r.path| then r.path[i + 1] else r.body.dst) !in w.pending
    ensures Credit(env, w, self, r) == w
  {
    var i := IndexOf(r.path, self);
    assert i.Some? && Genuine(r) ==> Proves(r, self, i.value);
  }

  // ---- the way back ---------------------------------------------------------------------

  /** What was posted stays posted, and what was credited stays credited. */
  ghost predicate Lasting(w: World, w': World) {
    w.receipts <= w'.receipts && w.credits <= w'.credits
  }

  lemma ArriveLasts(env: Env, w: World, self: NodeId, packet: Packet, exclude: set<NodeId>, ch: Choice)
    ensures Lasting(w, Arrive(env, w, self, packet, exclude, ch).0)
  {
    if self == packet.dst && Verified(packet.(node := self)) {
      ArriveAtDst(env, w, self, packet, exclude, ch);
    } else {
      ArriveSame(env, w, self, packet, exclude, ch);
    }
  }

  lemma {:induction false} CopiesLast(env: Env, w: World, id: nat, src: NodeId, dst: NodeId,
      copies: seq<(real, Choice)>)
    ensures Lasting(w, SendCopies(env, w, id, src, dst, copies).world)
  {
    hide Arrive;
    if |copies| > 0 {
      var init, copy := copies[..|copies| - 1], copies[|copies| - 1];
      CopiesLast(env, w, id, src, dst, init);
      var s, p := SendCopies(env, w, id, src, dst, init), SignedCopy(env, id, src, dst, copy.0);
      ArriveLasts(env, s.world.(issued := s.world.issued + {p.signature.value}), src, p, s.taken, copy.1);
    }
  }

  lemma {:induction false} SweepLasts(w: World, late: seq<Entry>)
    ensures Lasting(w, Sweep(w, late))
  {
    if |late| > 0 {
      SweepLasts(w, late[..|late| - 1]);
    }
  }

  lemma ApplyLasts(w: World, a: Action)
    ensures Lasting(w, Apply(w, a))
  {
    hide Arrive, SendCopies, Sweep;
    match a
    case Originate(env, src, dst, copies) =>
      CopiesLast(env, w.(origin := w.origin + [(src, dst)]), |w.origin|, src, dst, copies);
    case Receive(env, node, p, ch) => ArriveLasts(env, w, node, p, {}, ch);
    case Return(env, node, r) =>
    case Timeout(late) => SweepLasts(w, late);
    case InjectPacket(_, _) =>
    case InjectReceipt(_, _) =>
  }

  lemma {:induction false} RunLasts(acts: seq<Action>, more: seq<Action>)
    ensures Lasting(After(acts), After(acts + more))
  {
    hide Apply;
    if more == [] {
      assert acts + more == acts;
    } else {
      var init, a := more[..|more| - 1], more[|more| - 1];
      assert (acts + more)[..|acts + more| - 1] == acts + init;
      RunLasts(acts, init);
      ApplyLasts(After(acts + init), a);
    }
  }

  /** The receipt of p on its way back to node k: other things may happen before it reaches the next node. */
  function Homeward(p: Packet, k: nat, pauses: seq<seq<Action>>, envs: seq<Env>): seq<Action>
    requires k <= |p.path| == |pauses| == |envs|
    decreases |p.path| - k
  {
    if k == |p.path| then []
    else Homeward(p, k + 1, pauses, envs) + pauses[k] + [Return(envs[k], p.path[k], ProofOf(p))]
  }

  /** What happens before the receipt reaches node k can happen, and leaves node k waiting for it; the node before
      is up by then. */
  ghost predicate Waits(links: Adjacency, ttl: int, corrupt: set<NodeId>, acts: seq<Action>, p: Packet, k: nat,
      pauses: seq<seq<Action>>, envs: seq<Env>)
    requires k < |p.path| == |pauses| == |envs|
  {
    var before := acts + Homeward(p, k + 1, pauses, envs) + pauses[k];
    && (Run(links, ttl, corrupt, acts + Homeward(p, k + 1, pauses, envs)) ==> Run(links, ttl, corrupt, before))
    && EnvOk(links, ttl, envs[k]) && HopEntry(p, k) in After(before).pending
    && (k > 0 ==> p.path[k - 1] !in envs[k].off)
  }

  /** A receipt that its last forwarder has been sent can be carried back through every node of its path, whatever
      else happens meanwhile, as long as each node still waits for it; then each is credited for its hop. */
  lemma {:induction false} CarriedBack(links: Adjacency, ttl: int, corrupt: set<NodeId>, acts: seq<Action>, p: Packet,
      k: nat, pauses: seq<seq<Action>>, envs: seq<Env>)
    requires Run(links, ttl, corrupt, acts) && Distinct(p.path) && k <= |p.path| == |pauses| == |envs| && |p.path| > 0
    requires (ProofOf(p), p.path[|p.path| - 1]) in After(acts).receipts
    requires forall j :: k <= j < |p.path| ==> Waits(links, ttl, corrupt, acts, p, j, pauses, envs)
    ensures var all := acts + Homeward(p, k, pauses, envs);
      && Run(links, ttl, corrupt, all) && Credited(After(all), p, k)
      && (k > 0 ==> (ProofOf(p), p.path[k - 1]) in After(all).receipts)
    decreases |p.path| - k
  {
    hide Apply, Enabled, HopEntry;
    if k == |p.path| {
      assert acts + Homeward(p, k, pauses, envs) == acts;
    } else {
      assert Waits(links, ttl, corrupt, acts, p, k, pauses, envs);
      CarriedBack(links, ttl, corrupt, acts, p, k + 1, pauses, envs);
      CarriedOn(links, ttl, corrupt, acts + Homeward(p, k + 1, pauses, envs), p, k, pauses[k], envs[k]);
      assert acts + Homeward(p, k, pauses, envs) ==
        acts + Homeward(p, k + 1, pauses, envs) + pauses[k] + [Return(envs[k], p.path[k], ProofOf(p))];
    }
  }

  /** One node further back. */
  lemma CarriedOn(links: Adjacency, ttl: int, corrupt: set<NodeId>, acts: seq<Action>, p: Packet, k: nat,
      pause: seq<Action>, env: Env)
    requires k < |p.path| && Distinct(p.path) && Run(links, ttl, corrupt, acts + pause) && EnvOk(links, ttl, env)
    requires (ProofOf(p), p.path[k]) in After(acts).receipts && HopEntry(p, k) in After(acts + pause).pending
    requires Credited(After(acts), p, k + 1) && (k > 0 ==> p.path[k - 1] !in env.off)
    ensures var all := acts + pause + [Return(env, p.path[k], ProofOf(p))];
      && Run(links, ttl, corrupt, all) && Credited(After(all), p, k)
      && (k > 0 ==> (ProofOf(p), p.path[k - 1]) in After(all).receipts)
  {
    hide Credit;
    var a, w := Return(env, p.path[k], ProofOf(p)), After(acts + pause);
    RunLasts(acts, pause);
    assert (acts + pause + [a])[..|acts + pause|] == acts + pause;
    ReceiptSettles(env, w, p.path[k], ProofOf(p), k);
  }

  /** So every hop of an accepted packet can be credited, from the acceptance on. */
  lemma AcceptedThenCredited(links: Adjacency, ttl: int, corrupt: set<NodeId>, acts: seq<Action>, env: Env, p: Packet,
      ch: Choice, pauses: seq<seq<Action>>, envs: seq<Env>)
    requires Run(links, ttl, corrupt, acts + [Receive(env, p.dst, p, ch)]) && SignedBySource(p) && env.receipts
    requires 0 < |p.path| == |pauses| == |envs| && Distinct(p.path) && p.path[|p.path| - 1] !in env.off
    requires forall j :: 0 <= j < |p.path| ==>
      Waits(links, ttl, corrupt, acts + [Receive(env, p.dst, p, ch)], p, j, pauses, envs)
    ensures var all := acts + [Receive(env, p.dst, p, ch)] + Homeward(p, 0, pauses, envs);
      && Run(links, ttl, corrupt, all)
      && (p.dst, p.id) in After(acts + [Receive(env, p.dst, p, ch)]).deliveredIds
      && forall j :: 0 <= j < |p.path| ==>
           Entry(p.path[j], p.id, if j + 1 < |p.path| then p.path[j + 1] else p.dst) in After(all).credits
  {
    hide Arrive, Waits;
    var first := acts + [Receive(env, p.dst, p, ch)];
    assert first[..|acts|] == acts;
    ArrivesHome(env, After(acts), p, {}, ch);
    CarriedBack(links, ttl, corrupt, first, p, 0, pauses, envs);
    var all := first + Homeward(p, 0, pauses, envs);
    forall j | 0 <= j < |p.path|
      ensures Entry(p.path[j], p.id, if j + 1 < |p.path| then p.path[j + 1] else p.dst) in After(all).credits
    {
      assert HopEntry(p, j) in After(all).credits;
    }
  }

  // ---- redundant copies -----------------------------------------------------------------

  lemma ForwardCopies(env: Env, w: World, self: NodeId, p: Packet, nxt: NodeId, failed: nat, deadline: real)
    ensures Forward(env, w, self, p, nxt, failed, deadline).stats.redundantCopies == w.stats.redundantCopies
  {
    hide Onward, Touched;
  }

  lemma AcceptCopies(env: Env, w: World, p: Packet, now: real)
    ensures Accept(env, w, p, now).stats.redundantCopies == w.stats.redundantCopies
  {
    hide ReceiptOf;
  }

  lemma ArriveCopies(env: Env, w: World, self: NodeId, p: Packet, exclude: set<NodeId>, ch: Choice)
    ensures Arrive(env, w, self, p, exclude, ch).0.stats.redundantCopies == w.stats.redundantCopies
  {
    hide DiverseHop, Forward, Accept, Verified;
    forall q, now { AcceptCopies(env, w, q, now); }
    forall q, nxt { ForwardCopies(env, w, self, q, nxt, ch.failed, ch.deadline); }
  }

  /** While every copy finds a hop, all but the first count as redundant. */
  lemma {:induction false} CopiesCounted(env: Env, w: World, id: nat, src: NodeId, dst: NodeId,
      copies: seq<(real, Choice)>)
    ensures var s := SendCopies(env, w, id, src, dst, copies);
      s.open ==> s.world.stats.redundantCopies == w.stats.redundantCopies + if |copies| > 1 then |copies| - 1 else 0
  {
    hide Arrive;
    if |copies| > 0 {
      var init, copy := copies[..|copies| - 1], copies[|copies| - 1];
      CopiesCounted(env, w, id, src, dst, init);
      var s, p := SendCopies(env, w, id, src, dst, init), SignedCopy(env, id, src, dst, copy.0);
      ArriveCopies(env, s.world.(issued := s.world.issued + {p.signature.value}), src, p, s.taken, copy.1);
    }
  }

  lemma CopyHop(env: Env, w: World, self: NodeId, p: Packet, exclude: set<NodeId>, ch: Choice)
    ensures var next := Arrive(env, w, self, p, exclude, ch).1; next.Some? ==> next == DiverseHop(env, exclude, ch)
  {
  }

  /** The solver has a hop no sibling has taken, at first sight or within the tolerance. */
  predicate HasFreshHop(env: Env, taken: set<NodeId>, ch: Choice) {
    ch.natural.Some? &&
    (ch.natural.value !in taken ||
     (ch.diverse.Some? && ch.diverse.value !in taken &&
      (ch.risk.None? || ch.risk.value(ch.diverse.value) <= ch.risk.value(ch.natural.value) + env.tolerance)))
  }

  /** As long as the solver has such a hop for every copy, no two copies take the same one. */
  lemma {:induction false} CopiesDiverse(env: Env, w: World, id: nat, src: NodeId, dst: NodeId,
      copies: seq<(real, Choice)>)
    requires forall k :: 0 <= k < |copies| ==>
      HasFreshHop(env, SendCopies(env, w, id, src, dst, copies[..k]).taken, copies[k].1)
    ensures var s := SendCopies(env, w, id, src, dst, copies); s.open ==> |s.taken| == |copies|
  {
    hide Arrive, DiverseHop, HasFreshHop;
    if |copies| > 0 {
      var init, copy := copies[..|copies| - 1], copies[|copies| - 1];
      forall k | 0 <= k < |init|
        ensures HasFreshHop(env, SendCopies(env, w, id, src, dst, init[..k]).taken, init[k].1)
      {
        assert init[..k] == copies[..k];
      }
      CopiesDiverse(env, w, id, src, dst, init);
      var s, p := SendCopies(env, w, id, src, dst, init), SignedCopy(env, id, src, dst, copy.0);
      CopyHop(env, s.world.(issued := s.world.issued + {p.signature.value}), src, p, s.taken, copy.1);
      FreshHop(env, s.taken, copy.1);
    }
  }

  lemma FreshHop(env: Env, taken: set<NodeId>, ch: Choice)
    requires HasFreshHop(env, taken, ch)
    ensures var hop := DiverseHop(env, taken, ch); hop.Some? && hop.value !in taken
  {
  }
}
