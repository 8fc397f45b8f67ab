/** Safety of every run of the daemon cluster, also one in which an attacker replays and alters
    messages: authenticity and at-most-once delivery, no credit without delivery, and the accounts. */
module DaemonSafety {
  import opened Network
  import opened Packets
  import opened Sequences
  import opened DaemonState

  // ---- authenticity -----------------------------------------------------------------

  /** A signature is by the source of a packet it originated, or by the destination of one it accepted,
      and the two are different nodes. */
  ghost predicate Authentic(w: World, s: Signature) {
    && s.body.src != s.body.dst
    && ((s.signer == s.body.src && Originated(w, s.body.id, s.body.src, s.body.dst))
        || (s.signer == s.body.dst && exists p :: p in w.accepted && p.Content() == s.body))
  }

  ghost predicate Originated(w: World, id: nat, src: NodeId, dst: NodeId) {
    id < |w.origin| && w.origin[id] == (src, dst)
  }

  /** Each node accepts each id once, and what claims a source that is not corrupt was originated there. */
  ghost predicate DeliveredOnce(corrupt: set<NodeId>, w: World) {
    var d := w.stats.delivered;
    && (forall i, j :: 0 <= i < j < |d| ==> d[i].id != d[j].id || d[i].dst != d[j].dst)
    && (forall i :: 0 <= i < |d| ==> (d[i].dst, d[i].id) in w.deliveredIds)
    && (forall i :: 0 <= i < |d| && d[i].src !in corrupt ==> Originated(w, d[i].id, d[i].src, d[i].dst))
    && (forall n, id :: (n, id) in w.deliveredIds ==> exists i :: 0 <= i < |d| && d[i].id == id && d[i].dst == n)
  }

  /** No forward is credited unless the packet got to its destination, or a corrupt destination says so. */
  ghost predicate CreditsEarned(corrupt: set<NodeId>, w: World) {
    && (forall e :: e in w.credits ==> Earned(corrupt, w, e.id))
    && (forall p :: p in w.accepted ==> (p.dst, p.id) in w.deliveredIds)
  }

  ghost predicate Earned(corrupt: set<NodeId>, w: World, id: nat) {
    (exists p :: p in w.accepted && p.id == id) || VouchedFor(corrupt, w, id)
  }

  /** A corrupt destination has signed that the packet arrived. */
  ghost predicate VouchedFor(corrupt: set<NodeId>, w: World, id: nat) {
    exists r :: r in w.receipts && r.0.body.id == id && r.0.body.dst in corrupt && Genuine(r.0)
  }

  ghost predicate MessagesSigned(corrupt: set<NodeId>, w: World) {
    && (forall s :: s in w.issued ==> s.signer in corrupt || Authentic(w, s))
    && (forall f :: f in w.frames ==> Known(corrupt, w, f.0.signature))
    && (forall r :: r in w.receipts ==> Known(corrupt, w, r.0.signature))
  }

  ghost predicate Auth(corrupt: set<NodeId>, w: World) {
    MessagesSigned(corrupt, w) && DeliveredOnce(corrupt, w) && CreditsEarned(corrupt, w)
  }

  lemma StatsOnly(corrupt: set<NodeId>, w: World, st: Stats)
    requires Auth(corrupt, w) && st.delivered == w.stats.delivered
    ensures Auth(corrupt, w.(stats := st))
  {
  }

  lemma TouchDelivered(st: Stats, p: Packet)
    ensures CountTouch(st, p).delivered == st.delivered && CountTouch(st, p).generated == st.generated
  {
  }

  lemma DropAuth(corrupt: set<NodeId>, w: World, reason: Reason, p: Packet)
    requires Auth(corrupt, w)
    ensures Auth(corrupt, Drop(w, reason, p))
  {
  }

  lemma FrameAuth(corrupt: set<NodeId>, w: World, p: Packet, to: NodeId)
    requires Auth(corrupt, w) && Known(corrupt, w, p.signature)
    ensures Auth(corrupt, w.(frames := w.frames + {(p, to)}))
  {
  }

  lemma ReceiptAuth(corrupt: set<NodeId>, w: World, r: Receipt, to: NodeId)
    requires Auth(corrupt, w) && Known(corrupt, w, r.signature)
    ensures Auth(corrupt, w.(receipts := w.receipts + {(r, to)}))
  {
  }

  lemma IssueAuth(corrupt: set<NodeId>, w: World, s: Signature)
    requires Auth(corrupt, w) && Authentic(w, s)
    ensures Auth(corrupt, w.(issued := w.issued + {s}))
  {
  }

  lemma AwaitAuth(corrupt: set<NodeId>, w: World, e: Entry, deadline: real)
    requires Auth(corrupt, w)
    ensures Auth(corrupt, Await(w, e, deadline))
  {
  }

  lemma ForwardAuth(corrupt: set<NodeId>, env: Env, w: World, self: NodeId, p: Packet, nxt: NodeId, failed: nat,
      deadline: real)
    requires Auth(corrupt, w) && Known(corrupt, w, p.signature)
    ensures Auth(corrupt, Forward(env, w, self, p, nxt, failed, deadline))
  {
    hide Auth, Drop, Await;
    if nxt in env.off {
      DropAuth(corrupt, w, NodeDown, p);
    } else {
      var ok := failed <= env.retries;
      var w1 := w.(stats := Retried(w.stats, failed + if ok then 1 else 0));
      var q := Touched(env, p, nxt);
      StatsOnly(corrupt, w, w1.stats);
      if !ok {
        DropAuth(corrupt, w1, if nxt in env.sybils then SybilDrop else LinkLoss, q);
      } else {
        AwaitAuth(corrupt, w1, Entry(self, p.id, nxt), deadline);
        var w2 := if env.receipts then Await(w1, Entry(self, p.id, nxt), deadline) else w1;
        assert w2.issued == w1.issued by { AwaitIssued(w1, Entry(self, p.id, nxt), deadline); }
        FrameAuth(corrupt, w2, Onward(q, self, nxt), nxt);
      }
    }
  }

  lemma AwaitIssued(w: World, e: Entry, deadline: real)
    ensures Await(w, e, deadline).issued == w.issued && Await(w, e, deadline).origin == w.origin
  {
  }

  /** A verified packet whose source is not corrupt was originated as it claims. */
  lemma VerifiedOriginated(corrupt: set<NodeId>, w: World, p: Packet)
    requires Auth(corrupt, w) && Verified(p) && Known(corrupt, w, p.signature)
    ensures p.src !in corrupt ==> Originated(w, p.id, p.src, p.dst)
    ensures p.dst !in corrupt ==> p.src != p.dst
  {
  }

  lemma DeliverAuth(corrupt: set<NodeId>, w: World, p: Packet, now: real)
    requires MessagesSigned(corrupt, w) && DeliveredOnce(corrupt, w) && p in w.accepted
    requires p.src !in corrupt ==> Originated(w, p.id, p.src, p.dst)
    requires forall e :: e in w.credits ==> Earned(corrupt, w, e.id)
    requires forall q :: q in w.accepted && q != p ==> (q.dst, q.id) in w.deliveredIds
    ensures var q := p.(latency := now - p.createdAt);
      Auth(corrupt, if (p.dst, p.id) in w.deliveredIds then w
           else w.(deliveredIds := w.deliveredIds + {(p.dst, p.id)}, stats := RecordDelivery(w.stats, q)))
  {
    if (p.dst, p.id) !in w.deliveredIds {
      var q := p.(latency := now - p.createdAt);
      TouchDelivered(w.stats.(delivered := w.stats.delivered + [q]), q);
      hide MessagesSigned, DeliveredOnce, CountTouch, Originated;
      var w' := w.(deliveredIds := w.deliveredIds + {(p.dst, p.id)}, stats := RecordDelivery(w.stats, q));
      SameMessages(corrupt, w, w');
      OnceMore(corrupt, w, w', q);
    }
  }

  lemma SameMessages(corrupt: set<NodeId>, w: World, w': World)
    requires MessagesSigned(corrupt, w) && w'.issued == w.issued && w'.frames == w.frames && w'.receipts == w.receipts
    requires w'.accepted == w.accepted && w'.origin == w.origin
    ensures MessagesSigned(corrupt, w')
  {
    forall s | s in w'.issued && s.signer !in corrupt ensures Authentic(w', s) { assert Authentic(w, s); }
  }

  /** A first delivery of an id at a node is the only one. */
  lemma OnceMore(corrupt: set<NodeId>, w: World, w': World, q: Packet)
    requires DeliveredOnce(corrupt, w) && (q.dst, q.id) !in w.deliveredIds && w'.origin == w.origin
    requires q.src !in corrupt ==> Originated(w, q.id, q.src, q.dst)
    requires w'.stats.delivered == w.stats.delivered + [q] && w'.deliveredIds == w.deliveredIds + {(q.dst, q.id)}
    ensures DeliveredOnce(corrupt, w')
  {
    hide Originated;
    var d, d' := w.stats.delivered, w'.stats.delivered;
    forall n, id | (n, id) in w'.deliveredIds ensures exists i :: 0 <= i < |d'| && d'[i].id == id && d'[i].dst == n {
      if (n, id) in w.deliveredIds {
        var i :| 0 <= i < |d| && d[i].id == id && d[i].dst == n;
        assert d'[i] == d[i];
      } else {
        assert d'[|d|] == q;
      }
    }
    forall i, j | 0 <= i < j < |d'| ensures d'[i].id != d'[j].id || d'[i].dst != d'[j].dst {
      assert (d[i].dst, d[i].id) in w.deliveredIds;
    }
    forall i | 0 <= i < |d'| && d'[i].src !in corrupt ensures Originated(w', d'[i].id, d'[i].src, d'[i].dst) {
      SameOrigin(w, w', d'[i]);
    }
  }

  lemma SameOrigin(w: World, w': World, p: Packet)
    requires w'.origin == w.origin
    ensures Originated(w', p.id, p.src, p.dst) <==> Originated(w, p.id, p.src, p.dst)
  {
  }

  lemma AcceptedSigned(corrupt: set<NodeId>, w: World, p: Packet)
    requires Auth(corrupt, w)
    ensures MessagesSigned(corrupt, w.(accepted := w.accepted + {p}))
    ensures DeliveredOnce(corrupt, w.(accepted := w.accepted + {p}))
  {
  }

  /** Issuing and sending a receipt touches nothing but those two records. */
  ghost predicate SameBooks(w: World, w': World) {
    w' == w.(issued := w'.issued, receipts := w'.receipts)
  }

  lemma EmitSame(env: Env, w: World, p: Packet)
    ensures SameBooks(w, EmitReceipt(env, w, p)) && w.receipts <= EmitReceipt(env, w, p).receipts
  {
  }

  lemma EmitSigned(corrupt: set<NodeId>, env: Env, w: World, p: Packet)
    requires MessagesSigned(corrupt, w) && p in w.accepted && (p.dst !in corrupt ==> p.src != p.dst)
    ensures MessagesSigned(corrupt, EmitReceipt(env, w, p)) && SameBooks(w, EmitReceipt(env, w, p))
  {
  }

  lemma EarnedStill(corrupt: set<NodeId>, w: World, p: Packet)
    requires CreditsEarned(corrupt, w)
    ensures var w' := w.(accepted := w.accepted + {p});
      && (forall e :: e in w'.credits ==> Earned(corrupt, w', e.id))
      && (forall q :: q in w'.accepted && q != p ==> (q.dst, q.id) in w'.deliveredIds)
  {
  }

  lemma EarnedGrows(corrupt: set<NodeId>, w: World, w': World, id: nat)
    requires Earned(corrupt, w, id) && w.accepted <= w'.accepted && w.receipts <= w'.receipts
    ensures Earned(corrupt, w', id)
  {
    hide Genuine;
    if r :| r in w.receipts && r.0.body.id == id && r.0.body.dst in corrupt && Genuine(r.0) {
      assert r in w'.receipts;
    }
  }

  lemma AcceptAuth(corrupt: set<NodeId>, env: Env, w: World, p: Packet, now: real)
    requires Auth(corrupt, w) && Verified(p) && Known(corrupt, w, p.signature)
    ensures Auth(corrupt, Accept(env, w, p, now))
  {
    hide EmitReceipt, MessagesSigned, RecordDelivery, DeliveredOnce, CreditsEarned, Verified, Earned;
    VerifiedOriginated(corrupt, w, p);
    AcceptedSigned(corrupt, w, p);
    EarnedStill(corrupt, w, p);
    var w1 := w.(accepted := w.accepted + {p});
    EmitSigned(corrupt, env, w1, p);
    var w2 := if env.receipts then EmitReceipt(env, w1, p) else w1;
    assert DeliveredOnce(corrupt, w2) by { SameDelivered(corrupt, w1, w2); }
    EmitSame(env, w1, p);
    forall e | e in w2.credits ensures Earned(corrupt, w2, e.id) { EarnedGrows(corrupt, w1, w2, e.id); }
    DeliverAuth(corrupt, w2, p, now);
  }

  lemma SameDelivered(corrupt: set<NodeId>, w: World, w': World)
    requires DeliveredOnce(corrupt, w) && w'.stats == w.stats && w'.deliveredIds == w.deliveredIds
    requires w'.origin == w.origin
    ensures DeliveredOnce(corrupt, w')
  {
  }

  lemma ArriveAuth(corrupt: set<NodeId>, env: Env, w: World, self: NodeId, packet: Packet, exclude: set<NodeId>,
      ch: Choice)
    requires Auth(corrupt, w) && Known(corrupt, w, packet.signature)
    ensures Auth(corrupt, Arrive(env, w, self, packet, exclude, ch).0)
  {
    hide Auth, Drop, Forward, Accept;
    var p := packet.(node := self);
    if self == p.dst {
      if Verified(p) {
        AcceptAuth(corrupt, env, w, p, ch.now);
      } else {
        DropAuth(corrupt, w, BadSignature, p);
      }
    } else if self in env.off {
      DropAuth(corrupt, w, NodeDown, p);
    } else if self in p.visited {
      DropAuth(corrupt, w, Loop, p);
    } else if p.ttl <= 0 {
      DropAuth(corrupt, w, TtlExpired, p);
    } else {
      var q := Chosen(p.(visited := p.visited + {self}), exclude, ch);
      var nxt := DiverseHop(env, exclude, ch);
      if nxt.None? || nxt.value !in Neighbors(env.adj, self) {
        DropAuth(corrupt, w, NoRoute, q);
      } else {
        ForwardAuth(corrupt, env, w, self, q, nxt.value, ch.failed, ch.deadline);
      }
    }
  }

  lemma CopyAuth(corrupt: set<NodeId>, env: Env, s: Sending, id: nat, src: NodeId, dst: NodeId, copy: (real, Choice),
      first: bool)
    requires Auth(corrupt, s.world) && Originated(s.world, id, src, dst) && src != dst
    ensures Auth(corrupt, SendCopy(env, s, id, src, dst, copy, first).world)
  {
    hide Auth, Arrive;
    var p := SignedCopy(env, id, src, dst, copy.0);
    var w0 := s.world.(issued := s.world.issued + {p.signature.value});
    IssueAuth(corrupt, s.world, p.signature.value);
    ArriveAuth(corrupt, env, w0, src, p, s.taken, copy.1);
    var w1 := Arrive(env, w0, src, p, s.taken, copy.1).0;
    StatsOnly(corrupt, w1, w1.stats.(redundantCopies := w1.stats.redundantCopies + 1));
  }

  lemma {:induction false} CopiesAuth(corrupt: set<NodeId>, env: Env, w: World, id: nat, src: NodeId, dst: NodeId,
      copies: seq<(real, Choice)>)
    requires Auth(corrupt, w) && Originated(w, id, src, dst) && src != dst
    ensures Auth(corrupt, SendCopies(env, w, id, src, dst, copies).world)
  {
    hide Auth, SendCopy;
    if |copies| > 0 {
      var init := copies[..|copies| - 1];
      CopiesAuth(corrupt, env, w, id, src, dst, init);
      CopiesOrigin(env, w, id, src, dst, init);
      CopyAuth(corrupt, env, SendCopies(env, w, id, src, dst, init), id, src, dst, copies[|copies| - 1], |copies| == 1);
    }
  }

  /** Handling packets originates nothing and generates nothing. */
  lemma ArriveOrigin(env: Env, w: World, self: NodeId, packet: Packet, exclude: set<NodeId>, ch: Choice)
    ensures Arrive(env, w, self, packet, exclude, ch).0.origin == w.origin
    ensures Arrive(env, w, self, packet, exclude, ch).0.stats.generated == w.stats.generated
  {
    hide Forward, Accept, Chosen, DiverseHop, CountTouch;
    var p := packet.(node := self);
    AcceptOrigin(env, w, p, ch.now);
    var nxt := DiverseHop(env, exclude, ch);
    if nxt.Some? {
      ForwardOrigin(env, w, self, Chosen(p.(visited := p.visited + {self}), exclude, ch), nxt.value, ch.failed,
        ch.deadline);
    }
    forall st, q ensures CountTouch(st, q).generated == st.generated { TouchDelivered(st, q); }
  }

  lemma AcceptOrigin(env: Env, w: World, p: Packet, now: real)
    ensures Accept(env, w, p, now).origin == w.origin && Accept(env, w, p, now).stats.generated == w.stats.generated
  {
  }

  lemma ForwardOrigin(env: Env, w: World, self: NodeId, p: Packet, nxt: NodeId, failed: nat, deadline: real)
    ensures Forward(env, w, self, p, nxt, failed, deadline).origin == w.origin
    ensures Forward(env, w, self, p, nxt, failed, deadline).stats.generated == w.stats.generated
  {
  }

  lemma {:induction false} CopiesOrigin(env: Env, w: World, id: nat, src: NodeId, dst: NodeId,
      copies: seq<(real, Choice)>)
    ensures SendCopies(env, w, id, src, dst, copies).world.origin == w.origin
    ensures SendCopies(env, w, id, src, dst, copies).world.stats.generated == w.stats.generated
  {
    hide Arrive;
    if |copies| > 0 {
      var init, copy := copies[..|copies| - 1], copies[|copies| - 1];
      CopiesOrigin(env, w, id, src, dst, init);
      var s, p := SendCopies(env, w, id, src, dst, init), SignedCopy(env, id, src, dst, copy.0);
      ArriveOrigin(env, s.world.(issued := s.world.issued + {p.signature.value}), src, p, s.taken, copy.1);
    }
  }

  lemma ConfirmAuth(corrupt: set<NodeId>, w: World, r: Receipt, to: NodeId, e: Entry)
    requires Auth(corrupt, w) && Genuine(r) && (r, to) in w.receipts && e.id == r.body.id
    ensures Auth(corrupt, Confirm(w, e))
  {
  }

  lemma ReceiptKnown(corrupt: set<NodeId>, w: World, r: Receipt, to: NodeId)
    requires Auth(corrupt, w) && (r, to) in w.receipts
    ensures Known(corrupt, w, r.signature)
  {
  }

  lemma CreditAuth(corrupt: set<NodeId>, env: Env, w: World, self: NodeId, r: Receipt)
    requires Auth(corrupt, w) && (r, self) in w.receipts
    ensures Auth(corrupt, Credit(env, w, self, r))
  {
    hide Auth;
    if Genuine(r) && IndexOf(r.path, self).Some? {
      var i := IndexOf(r.path, self).value;
      var e := Entry(self, r.body.id, HopAfter(r.path, i, r.body.dst));
      ConfirmAuth(corrupt, w, r, self, e);
      ReceiptKnown(corrupt, w, r, self);
      if i > 0 {
        ReceiptAuth(corrupt, Confirm(w, e), r, r.path[i - 1]);
      }
    }
  }

  lemma ExpireAuth(corrupt: set<NodeId>, w: World, e: Entry)
    requires Auth(corrupt, w)
    ensures Auth(corrupt, Expire(w, e)) && Expire(w, e).origin == w.origin
    ensures Expire(w, e).stats.generated == w.stats.generated
  {
    hide Genuine;
    var w' := Expire(w, e);
    forall s | s in w'.issued && s.signer !in corrupt ensures Authentic(w', s) { assert Authentic(w, s); }
  }

  lemma {:induction false} SweepAuth(corrupt: set<NodeId>, w: World, late: seq<Entry>)
    requires Auth(corrupt, w)
    ensures Auth(corrupt, Sweep(w, late)) && Sweep(w, late).origin == w.origin
    ensures Sweep(w, late).stats.generated == w.stats.generated
  {
    hide Auth, Expire;
    if |late| > 0 {
      SweepAuth(corrupt, w, late[..|late| - 1]);
      ExpireAuth(corrupt, Sweep(w, late[..|late| - 1]), late[|late| - 1]);
    }
  }

  lemma OriginateAuth(corrupt: set<NodeId>, w: World, src: NodeId, dst: NodeId)
    requires Auth(corrupt, w)
    ensures Auth(corrupt, w.(origin := w.origin + [(src, dst)]))
  {
  }

  lemma ApplyAuth(links: Adjacency, ttl: int, corrupt: set<NodeId>, w: World, a: Action)
    requires Auth(corrupt, w) && Enabled(links, ttl, corrupt, w, a)
    ensures Auth(corrupt, Apply(w, a))
  {
    match a
    case Originate(env, src, dst, copies) =>
      var w0 := w.(origin := w.origin + [(src, dst)]);
      OriginateAuth(corrupt, w, src, dst);
      hide Auth;
      CopiesAuth(corrupt, env, w0, |w.origin|, src, dst, copies);
      var w1 := SendCopies(env, w0, |w.origin|, src, dst, copies).world;
      StatsOnly(corrupt, w1, Generated(w1).stats);
    case Receive(env, node, p, ch) =>
      ArriveAuth(corrupt, env, w, node, p, {}, ch);
    case Return(env, node, r) =>
      CreditAuth(corrupt, env, w, node, r);
    case Timeout(late) =>
      SweepAuth(corrupt, w, late);
    case InjectPacket(to, p) =>
      FrameAuth(corrupt, w, p, to);
    case InjectReceipt(to, r) =>
      ReceiptAuth(corrupt, w, r, to);
  }

  // ---- the accounts -------------------------------------------------------------------

  /** Every forward that opened a verdict was confirmed once, timed out once, or is still pending; and
      the counters count what they say. */
  ghost predicate Books(w: World) {
    && w.entered == w.confirmed + w.expired + multiset(w.pending.Keys)
    && |w.confirmed| == w.stats.receiptsConfirmed && |w.expired| == w.stats.receiptTimeouts && Touches(w.stats)
  }

  ghost predicate Touches(st: Stats) {
    |st.sybilIds| == st.sybilTouched && |st.transitIds| == st.transitTouched
  }

  /** What a drop or a delivery leaves alone. */
  lemma RecordTouches(st: Stats, reason: Reason, p: Packet)
    requires Touches(st)
    ensures Touches(RecordDrop(st, reason, p)) && Touches(RecordDelivery(st, p))
    ensures RecordDrop(st, reason, p).receiptsConfirmed == st.receiptsConfirmed
    ensures RecordDelivery(st, p).receiptsConfirmed == st.receiptsConfirmed
    ensures RecordDrop(st, reason, p).receiptTimeouts == st.receiptTimeouts == RecordDelivery(st, p).receiptTimeouts
  {
  }

  /** Books only look at the ledger and the counters. */
  lemma SameLedger(w: World, w': World)
    requires Books(w) && w'.pending == w.pending && w'.entered == w.entered && w'.confirmed == w.confirmed
    requires w'.expired == w.expired
    requires w'.stats.receiptsConfirmed == w.stats.receiptsConfirmed
    requires w'.stats.receiptTimeouts == w.stats.receiptTimeouts && Touches(w'.stats)
    ensures Books(w')
  {
  }

  lemma BooksTouches(w: World)
    requires Books(w)
    ensures Touches(w.stats)
  {
  }

  lemma DropBooks(w: World, reason: Reason, p: Packet)
    requires Books(w)
    ensures Books(Drop(w, reason, p))
  {
  }

  lemma AwaitBooks(w: World, e: Entry, deadline: real)
    requires Books(w)
    ensures Books(Await(w, e, deadline)) && Await(w, e, deadline).stats == w.stats
  {
  }

  lemma ForwardBooks(env: Env, w: World, self: NodeId, p: Packet, nxt: NodeId, failed: nat, deadline: real)
    requires Books(w)
    ensures Books(Forward(env, w, self, p, nxt, failed, deadline))
  {
    hide Drop, Await;
    if nxt in env.off {
      DropBooks(w, NodeDown, p);
    } else {
      var ok := failed <= env.retries;
      var w1 := w.(stats := Retried(w.stats, failed + if ok then 1 else 0));
      DropBooks(w1, if nxt in env.sybils then SybilDrop else LinkLoss, Touched(env, p, nxt));
      AwaitBooks(w1, Entry(self, p.id, nxt), deadline);
    }
  }

  lemma AcceptBooks(env: Env, w: World, p: Packet, now: real)
    requires Books(w)
    ensures Books(Accept(env, w, p, now))
  {
    hide RecordDelivery, Books, Touches, Accept;
    BooksTouches(w);
    AcceptSame(env, w, p, now);
    RecordTouches(w.stats, BadSignature, p.(latency := now - p.createdAt));
    SameLedger(w, Accept(env, w, p, now));
  }

  /** An acceptance leaves the ledger alone, and counts a delivery or nothing. */
  lemma AcceptSame(env: Env, w: World, p: Packet, now: real)
    ensures var w', q := Accept(env, w, p, now), p.(latency := now - p.createdAt);
      && w'.pending == w.pending && w'.entered == w.entered && w'.confirmed == w.confirmed && w'.expired == w.expired
      && (w'.stats == w.stats || w'.stats == RecordDelivery(w.stats, q))
  {
    hide RecordDelivery, EmitReceipt;
    EmitSame(env, w.(accepted := w.accepted + {p}), p);
  }

  lemma ArriveBooks(env: Env, w: World, self: NodeId, packet: Packet, exclude: set<NodeId>, ch: Choice)
    requires Books(w)
    ensures Books(Arrive(env, w, self, packet, exclude, ch).0)
  {
    hide Books, Drop, Forward, Accept, DiverseHop, Chosen;
    var p := packet.(node := self);
    var q, nxt := Chosen(p.(visited := p.visited + {self}), exclude, ch), DiverseHop(env, exclude, ch);
    AcceptBooks(env, w, p, ch.now);
    forall reason ensures Books(Drop(w, reason, p)) && Books(Drop(w, reason, q)) {
      DropBooks(w, reason, p);
      DropBooks(w, reason, q);
    }
    if nxt.Some? {
      ForwardBooks(env, w, self, q, nxt.value, ch.failed, ch.deadline);
    }
  }

  lemma {:induction false} CopiesBooks(env: Env, w: World, id: nat, src: NodeId, dst: NodeId,
      copies: seq<(real, Choice)>)
    requires Books(w)
    ensures Books(SendCopies(env, w, id, src, dst, copies).world)
  {
    hide Arrive, Books;
    if |copies| > 0 {
      var init, copy := copies[..|copies| - 1], copies[|copies| - 1];
      CopiesBooks(env, w, id, src, dst, init);
      var s, p := SendCopies(env, w, id, src, dst, init), SignedCopy(env, id, src, dst, copy.0);
      var w0 := s.world.(issued := s.world.issued + {p.signature.value});
      BooksTouches(s.world);
      SameLedger(s.world, w0);
      ArriveBooks(env, w0, src, p, s.taken, copy.1);
      var w1 := Arrive(env, w0, src, p, s.taken, copy.1).0;
      BooksTouches(w1);
      SameLedger(w1, w1.(stats := w1.stats.(redundantCopies := w1.stats.redundantCopies + 1)));
    }
  }

  lemma CloseBooks(w: World, e: Entry)
    requires Books(w) && e in w.pending
    ensures Books(Confirm(w, e)) && Books(Expire(w, e))
    ensures Expire(w, e).pending.Keys == w.pending.Keys - {e} && Expire(w, e).entered == w.entered
  {
  }

  lemma CreditBooks(env: Env, w: World, self: NodeId, r: Receipt)
    requires Books(w)
    ensures Books(Credit(env, w, self, r))
  {
    if Genuine(r) && IndexOf(r.path, self).Some? {
      var e := Entry(self, r.body.id, HopAfter(r.path, IndexOf(r.path, self).value, r.body.dst));
      hide IndexOf, HopAfter, Genuine;
      if e in w.pending {
        CloseBooks(w, e);
      }
    }
  }

  lemma {:induction false} SweepBooks(w: World, late: seq<Entry>)
    requires Books(w) && Distinct(late) && forall i :: 0 <= i < |late| ==> late[i] in w.pending
    ensures Books(Sweep(w, late)) && Sweep(w, late).pending.Keys == w.pending.Keys - Elements(late)
    ensures Sweep(w, late).entered == w.entered
  {
    hide Books, Expire, Distinct;
    if |late| > 0 {
      var init, e := late[..|late| - 1], late[|late| - 1];
      DistinctLast(late);
      SweepBooks(w, init);
      CloseBooks(Sweep(w, init), e);
    }
  }

  lemma ApplyBooks(links: Adjacency, ttl: int, corrupt: set<NodeId>, w: World, a: Action)
    requires Books(w) && Enabled(links, ttl, corrupt, w, a)
    ensures Books(Apply(w, a))
  {
    match a
    case Originate(env, src, dst, copies) =>
      CopiesBooks(env, w.(origin := w.origin + [(src, dst)]), |w.origin|, src, dst, copies);
    case Receive(env, node, p, ch) => ArriveBooks(env, w, node, p, {}, ch);
    case Return(env, node, r) => CreditBooks(env, w, node, r);
    case Timeout(late) => SweepBooks(w, late);
    case InjectPacket(to, p) =>
    case InjectReceipt(to, r) =>
  }

  // ---- theorems about all runs -----------------------------------------------------------

  ghost predicate Safe(corrupt: set<NodeId>, w: World) {
    Auth(corrupt, w) && Books(w) && w.stats.generated == |w.origin|
  }

  lemma ApplyOrigin(links: Adjacency, ttl: int, corrupt: set<NodeId>, w: World, a: Action)
    requires Enabled(links, ttl, corrupt, w, a) && w.stats.generated == |w.origin| && Auth(corrupt, w)
    ensures Apply(w, a).stats.generated == |Apply(w, a).origin|
  {
    hide Auth;
    match a
    case Originate(env, src, dst, copies) =>
      CopiesOrigin(env, w.(origin := w.origin + [(src, dst)]), |w.origin|, src, dst, copies);
    case Receive(env, node, p, ch) => ArriveOrigin(env, w, node, p, {}, ch);
    case Return(env, node, r) =>
    case Timeout(late) => SweepAuth(corrupt, w, late);
    case InjectPacket(to, p) =>
    case InjectReceipt(to, r) =>
  }

  /** Every run, with or without an attacker and corrupt nodes, stays safe. */
  lemma {:induction false} RunSafe(links: Adjacency, ttl: int, corrupt: set<NodeId>, acts: seq<Action>)
    requires Run(links, ttl, corrupt, acts)
    ensures Safe(corrupt, After(acts))
  {
    if |acts| > 0 {
      var init, a := acts[..|acts| - 1], acts[|acts| - 1];
      RunSafe(links, ttl, corrupt, init);
      hide Auth, Books, Enabled, Apply;
      ApplyAuth(links, ttl, corrupt, After(init), a);
      ApplyBooks(links, ttl, corrupt, After(init), a);
      ApplyOrigin(links, ttl, corrupt, After(init), a);
    }
  }

  /** At-most-once authentic delivery, whatever the corrupt nodes sign: each node accepts each id once; the
      deliveries that claim a source that is not corrupt have distinct ids, were originated by that source for that
      destination, and are no more than the generated packets. */
  lemma AtMostOnce(links: Adjacency, ttl: int, corrupt: set<NodeId>, acts: seq<Action>)
    requires Run(links, ttl, corrupt, acts)
    ensures var w := After(acts); var d := w.stats.delivered;
      && (forall i, j :: 0 <= i < j < |d| ==> d[i].id != d[j].id || d[i].dst != d[j].dst)
      && (forall i, j :: 0 <= i < j < |d| && d[i].src !in corrupt && d[j].src !in corrupt ==> d[i].id != d[j].id)
      && (forall i :: 0 <= i < |d| && d[i].src !in corrupt ==> Originated(w, d[i].id, d[i].src, d[i].dst))
      && |HonestIds(corrupt, d)| <= w.stats.generated && (corrupt == {} ==> |d| <= w.stats.generated)
  {
    RunSafe(links, ttl, corrupt, acts);
    var w := After(acts);
    IdSetBelow(HonestIds(corrupt, w.stats.delivered), |w.origin|);
    if corrupt == {} {
      IdsBelow(w, w.stats.delivered);
    }
  }

  /** The ids of deliveries that claim a source that is not corrupt. */
  function HonestIds(corrupt: set<NodeId>, d: seq<Packet>): set<nat> {
    set i | 0 <= i < |d| && d[i].src !in corrupt :: d[i].id
  }

  lemma IdsBelow(w: World, d: seq<Packet>)
    requires (forall i, j :: 0 <= i < j < |d| ==> d[i].id != d[j].id)
    requires forall i :: 0 <= i < |d| ==> d[i].id < |w.origin|
    ensures |d| <= |w.origin|
  {
    var ids := seq(|d|, i requires 0 <= i < |d| => d[i].id);
    DistinctSize(ids);
    IdSetBelow(Elements(ids), |w.origin|);
  }

  lemma {:induction false} IdSetBelow(ids: set<nat>, n: nat)
    requires forall id :: id in ids ==> id < n
    ensures |ids| <= n
  {
    if n == 0 {
      assert ids == {};
    } else {
      var rest := ids - {n - 1};
      IdSetBelow(rest, n - 1);
      assert ids <= rest + {n - 1};
      SubsetSize(ids, rest + {n - 1});
    }
  }

  lemma AcceptedDelivered(corrupt: set<NodeId>, w: World, p: Packet)
    requires DeliveredOnce(corrupt, w) && CreditsEarned(corrupt, w) && p in w.accepted
    ensures exists i :: 0 <= i < |w.stats.delivered| && w.stats.delivered[i].id == p.id
  {
    assert (p.dst, p.id) in w.deliveredIds;
  }

  /** Whoever is credited, the packet got to its destination, or a corrupt destination has signed that it did. */
  lemma NoCreditWithoutDelivery(links: Adjacency, ttl: int, corrupt: set<NodeId>, acts: seq<Action>)
    requires Run(links, ttl, corrupt, acts)
    ensures var w := After(acts); var d := w.stats.delivered;
      forall e :: e in w.credits ==> (exists i :: 0 <= i < |d| && d[i].id == e.id) || VouchedFor(corrupt, w, e.id)
  {
    RunSafe(links, ttl, corrupt, acts);
    hide VouchedFor, MessagesSigned, DeliveredOnce, Books, Run;
    var w := After(acts);
    var d := w.stats.delivered;
    forall e | e in w.credits
      ensures (exists i :: 0 <= i < |d| && d[i].id == e.id) || VouchedFor(corrupt, w, e.id)
    {
      assert Earned(corrupt, w, e.id);
      if p :| p in w.accepted && p.id == e.id {
        AcceptedDelivered(corrupt, w, p);
      }
    }
  }

  /** Receipt accounting: confirmations, timeouts and pending entries add up to the forwards that
      opened a verdict, and no entry is settled more often than it was opened. */
  lemma Accounting(links: Adjacency, ttl: int, corrupt: set<NodeId>, acts: seq<Action>)
    requires Run(links, ttl, corrupt, acts)
    ensures var w := After(acts);
      && w.stats.receiptsConfirmed + w.stats.receiptTimeouts + |w.pending| == |w.entered|
      && forall e: Entry :: w.confirmed[e] + w.expired[e] + (if e in w.pending then 1 else 0) == w.entered[e]
  {
    RunSafe(links, ttl, corrupt, acts);
  }

  lemma EmptyBooks(w': World, w: World)
    requires Books(w') && w'.pending.Keys == {} && w'.entered == w.entered
    ensures w'.pending == map[] && w'.stats.receiptsConfirmed + w'.stats.receiptTimeouts == |w.entered|
  {
  }

  /** A sweep of all pending entries, as at shutdown, leaves nothing pending and times each out. */
  lemma FlushSettlesAll(links: Adjacency, ttl: int, corrupt: set<NodeId>, acts: seq<Action>, late: seq<Entry>)
    requires Run(links, ttl, corrupt, acts) && Distinct(late) && forall e :: e in late <==> e in After(acts).pending
    ensures var w := After(acts + [Timeout(late)]);
      w.pending == map[] && w.stats.receiptsConfirmed + w.stats.receiptTimeouts == |w.entered|
  {
    hide Auth, Run, Books;
    var w := After(acts);
    assert (acts + [Timeout(late)])[..|acts|] == acts;
    RunSafe(links, ttl, corrupt, acts);
    SweepBooks(w, late);
    assert Elements(late) == w.pending.Keys;
    hide After, Sweep;
    EmptyBooks(Sweep(w, late), w);
  }
}
