/** The daemon cluster (aegis_router/daemon.py) as a state machine: nodes exchange signed packets and
    receipts over a network that may lose, reorder and duplicate them. Every message ever sent stays
    available for delivery, any number of times or never. */
module DaemonState {
  import opened Network
  import opened Packets
  import opened Sequences

  datatype Receipt = Receipt(body: Body, path: seq<NodeId>, signature: Option<Signature>)

  /** A forward from node to next whose end-to-end verdict is open. */
  datatype Entry = Entry(node: NodeId, id: nat, next: NodeId)

  datatype Stats = Stats(generated: nat, delivered: seq<Packet>, dropped: map<Reason, nat>, retransmissions: nat,
      sybilIds: set<nat>, sybilTouched: nat, transitIds: set<nat>, transitTouched: nat, redundantCopies: nat,
      receiptsConfirmed: nat, receiptTimeouts: nat)

  /** What a node's surroundings are when it handles a message. */
  datatype Env = Env(adj: Adjacency, off: set<NodeId>, sybils: set<NodeId>, ttl: int, retries: nat, redundancy: nat,
      receipts: bool, tolerance: real)

  /** The solver's answers and learned peer risks, the failed tries of the chosen link, and clock readings. */
  datatype Choice = Choice(natural: Option<NodeId>, diverse: Option<NodeId>, risk: Option<NodeId -> real>, failed: nat,
      deadline: real, now: real)

  /** The whole cluster, and the messages, originations, signatures, verdicts and credits so far. */
  datatype World = World(stats: Stats, deliveredIds: set<(NodeId, nat)>, pending: map<Entry, real>,
      entered: multiset<Entry>, confirmed: multiset<Entry>, expired: multiset<Entry>, frames: set<(Packet, NodeId)>,
      receipts: set<(Receipt, NodeId)>, issued: set<Signature>, origin: seq<(NodeId, NodeId)>, accepted: set<Packet>,
      credits: set<Entry>)

  // ---- counters ------------------------------------------------------------------

  function CountTouch(st: Stats, p: Packet): Stats {
    var st1 := if p.touchedSybil && p.id !in st.sybilIds
               then st.(sybilIds := st.sybilIds + {p.id}, sybilTouched := st.sybilTouched + 1) else st;
    if p.touchedTransit && p.id !in st1.transitIds
    then st1.(transitIds := st1.transitIds + {p.id}, transitTouched := st1.transitTouched + 1) else st1
  }

  function RecordDrop(st: Stats, reason: Reason, p: Packet): Stats {
    var n := if reason in st.dropped then st.dropped[reason] else 0;
    CountTouch(st.(dropped := st.dropped[reason := n + 1]), p)
  }

  function RecordDelivery(st: Stats, p: Packet): Stats {
    CountTouch(st.(delivered := st.delivered + [p]), p)
  }

  // ---- steps of one node -------------------------------------------------------------

  function Drop(w: World, reason: Reason, p: Packet): World {
    w.(stats := RecordDrop(w.stats, reason, p))
  }

  /** The packet as it goes on the wire to the next hop. */
  function Onward(p: Packet, self: NodeId, nxt: NodeId): Packet {
    p.(lastFrom := Some(self), lastNeighbor := Some(nxt), path := p.path + [self], hops := p.hops + 1, ttl := p.ttl - 1)
  }

  function Touched(env: Env, p: Packet, nxt: NodeId): Packet {
    p.(touchedSybil := p.touchedSybil || nxt in env.sybils,
       touchedTransit := p.touchedTransit || (nxt in env.sybils && nxt != p.dst))
  }

  /** Opens the verdict on a forward; a second copy over the same hop only moves the deadline. */
  function Await(w: World, entry: Entry, deadline: real): World {
    w.(pending := w.pending[entry := deadline],
      entered := if entry in w.pending then w.entered else w.entered + multiset{entry})
  }

  function Retried(st: Stats, transmissions: nat): Stats {
    st.(retransmissions := st.retransmissions + if transmissions > 1 then transmissions - 1 else 0)
  }

  function Forward(env: Env, w: World, self: NodeId, p: Packet, nxt: NodeId, failed: nat, deadline: real): World {
    if nxt in env.off then Drop(w, NodeDown, p)
    else
      var ok := failed <= env.retries;
      var w1 := w.(stats := Retried(w.stats, failed + if ok then 1 else 0));
      var q := Touched(env, p, nxt);
      if !ok then Drop(w1, if nxt in env.sybils then SybilDrop else LinkLoss, q)
      else
        var w2 := if env.receipts then Await(w1, Entry(self, p.id, nxt), deadline) else w1;
        w2.(frames := w2.frames + {(Onward(q, self, nxt), nxt)})
  }

  /** The receipt of a packet, which only its destination can sign. */
  function ReceiptOf(p: Packet): Receipt {
    Receipt(p.Content(), p.path, Some(Signed(p.dst, p.Content())))
  }

  function SendReceipt(env: Env, w: World, r: Receipt, to: NodeId): World {
    if to in env.off then w else w.(receipts := w.receipts + {(r, to)})
  }

  function EmitReceipt(env: Env, w: World, p: Packet): World {
    if |p.path| == 0 then w
    else SendReceipt(env, w.(issued := w.issued + {Signed(p.dst, p.Content())}), ReceiptOf(p), p.path[|p.path| - 1])
  }

  function Accept(env: Env, w: World, p: Packet, now: real): World {
    var w1 := w.(accepted := w.accepted + {p});
    var w2 := if env.receipts then EmitReceipt(env, w1, p) else w1;
    if (p.dst, p.id) in w2.deliveredIds then w2
    else w2.(deliveredIds := w2.deliveredIds + {(p.dst, p.id)},
             stats := RecordDelivery(w2.stats, p.(latency := now - p.createdAt)))
  }

  /** The hop of a redundant copy: one that no sibling has taken, if that is not meaningfully riskier. */
  function DiverseHop(env: Env, exclude: set<NodeId>, ch: Choice): Option<NodeId> {
    if ch.natural.None? || ch.natural.value !in exclude || ch.diverse.None? || ch.diverse == ch.natural then ch.natural
    else if ch.risk.None? then ch.diverse
    else if ch.risk.value(ch.diverse.value) <= ch.risk.value(ch.natural.value) + env.tolerance then ch.diverse
    else ch.natural
  }

  /** The packet after its hop was chosen: siblings' hops were added to and taken out of `visited`. */
  function Chosen(p: Packet, exclude: set<NodeId>, ch: Choice): Packet {
    if ch.natural.None? || ch.natural.value !in exclude then p else p.(visited := p.visited + exclude - exclude)
  }

  /** Asks the solver for a hop and forwards over it; the hop is returned if it is a link of this node. */
  function Dispatch(env: Env, w: World, self: NodeId, p: Packet, exclude: set<NodeId>,
      ch: Choice): (World, Option<NodeId>)
  {
    var nxt, q := DiverseHop(env, exclude, ch), Chosen(p, exclude, ch);
    if nxt.None? || nxt.value !in Neighbors(env.adj, self) then (Drop(w, NoRoute, q), None)
    else (Forward(env, w, self, q, nxt.value, ch.failed, ch.deadline), nxt)
  }

  /** _handle_arrival: the new world, and the hop the packet was forwarded to. */
  function Arrive(env: Env, w: World, self: NodeId, packet: Packet, exclude: set<NodeId>,
      ch: Choice): (World, Option<NodeId>)
  {
    var p := packet.(node := self);
    if self == p.dst then
      (if Verified(p) then Accept(env, w, p, ch.now) else Drop(w, BadSignature, p), None)
    else if self in env.off then (Drop(w, NodeDown, p), None)
    else if self in p.visited then (Drop(w, Loop, p), None)
    else if p.ttl <= 0 then (Drop(w, TtlExpired, p), None)
    else Dispatch(env, w, self, p.(visited := p.visited + {self}), exclude, ch)
  }

  /** A copy as its source signs it. */
  function SignedCopy(env: Env, id: nat, src: NodeId, dst: NodeId, createdAt: real): Packet {
    NewPacket(id, src, dst, createdAt, env.ttl).(signature := Some(Signed(src, Body(id, src, dst, createdAt))))
  }

  /** Where the redundancy loop of send_new_packet stands: the hops taken, and whether it goes on. */
  datatype Sending = Sending(world: World, taken: set<NodeId>, open: bool)

  /** Sends one copy; the loop stops at a copy that has no hop. */
  function SendCopy(env: Env, s: Sending, id: nat, src: NodeId, dst: NodeId, copy: (real, Choice), first: bool): Sending
  {
    var p := SignedCopy(env, id, src, dst, copy.0);
    var (w, nxt) := Arrive(env, s.world.(issued := s.world.issued + {p.signature.value}), src, p, s.taken, copy.1);
    if nxt.None? then Sending(w, s.taken, false)
    else Sending(if first then w else w.(stats := w.stats.(redundantCopies := w.stats.redundantCopies + 1)),
                 s.taken + {nxt.value}, true)
  }

  function SendCopies(env: Env, w: World, id: nat, src: NodeId, dst: NodeId, copies: seq<(real, Choice)>): Sending {
    if |copies| == 0 then Sending(w, {}, true)
    else
      var s := SendCopies(env, w, id, src, dst, copies[..|copies| - 1]);
      if s.open then SendCopy(env, s, id, src, dst, copies[|copies| - 1], |copies| == 1) else s
  }

  /** The first place of a node on a path. */
  function IndexOf(path: seq<NodeId>, n: NodeId): (i: Option<nat>)
    ensures if i.None? then n !in path else i.value < |path| && path[i.value] == n && n !in path[..i.value]
  {
    if |path| == 0 then None
    else if path[0] == n then Some(0)
    else match IndexOf(path[1..], n) case None => None case Some(i) => Some(i + 1)
  }

  /** The hop after position i of a path. */
  function HopAfter(path: seq<NodeId>, i: nat, dst: NodeId): NodeId {
    if i + 1 < |path| then path[i + 1] else dst
  }

  /** Closes a pending verdict as confirmed. */
  function Confirm(w: World, e: Entry): World {
    w.(pending := w.pending - {e}, confirmed := w.confirmed + multiset{e}, credits := w.credits + {e},
       stats := w.stats.(receiptsConfirmed := w.stats.receiptsConfirmed + 1))
  }

  /** Closes a pending verdict as timed out. */
  function Expire(w: World, e: Entry): World {
    w.(pending := w.pending - {e}, expired := w.expired + multiset{e},
      stats := w.stats.(receiptTimeouts := w.stats.receiptTimeouts + 1))
  }

  predicate Genuine(r: Receipt) {
    r.signature == Some(Signed(r.body.dst, r.body))
  }

  /** The pending verdict a receipt settles at a node: that of the hop it took on the receipt's path. */
  function Settles(w: World, self: NodeId, r: Receipt): Option<Entry> {
    var i := IndexOf(r.path, self);
    if !Genuine(r) || i.None? then None
    else
      var e := Entry(self, r.body.id, HopAfter(r.path, i.value, r.body.dst));
      if e in w.pending then Some(e) else None
  }

  /** _handle_receipt: settle the verdict, and relay the receipt one node back. */
  function Credit(env: Env, w: World, self: NodeId, r: Receipt): World {
    match Settles(w, self, r)
    case None => w
    case Some(e) =>
      var i := IndexOf(r.path, self).value;
      if i > 0 then SendReceipt(env, Confirm(w, e), r, r.path[i - 1]) else Confirm(w, e)
  }

  /** sweep_receipt_timeouts over the entries found late. */
  function Sweep(w: World, late: seq<Entry>): World {
    if |late| == 0 then w else Expire(Sweep(w, late[..|late| - 1]), late[|late| - 1])
  }

  // ---- runs ------------------------------------------------------------------------------

  datatype Action =
    | Originate(env: Env, src: NodeId, dst: NodeId, copies: seq<(real, Choice)>)
    | Receive(env: Env, node: NodeId, packet: Packet, choice: Choice)
    | Return(env: Env, node: NodeId, receipt: Receipt)
    | Timeout(late: seq<Entry>)
    | InjectPacket(to: NodeId, packet: Packet)
    | InjectReceipt(to: NodeId, receipt: Receipt)

  /** Action a can happen in w. Messages can only be forged with signatures that were issued, or with those of
      the corrupt nodes, which sign whatever they like. */
  ghost predicate Enabled(links: Adjacency, ttl: int, corrupt: set<NodeId>, w: World, a: Action) {
    match a
    case Originate(env, src, dst, copies) =>
      EnvOk(links, ttl, env) && src in links && dst in links && src != dst && |copies| <= env.redundancy
    case Receive(env, node, p, _) => EnvOk(links, ttl, env) && (p, node) in w.frames
    case Return(env, node, r) => EnvOk(links, ttl, env) && (r, node) in w.receipts
    case Timeout(late) => Distinct(late) && forall e :: e in late ==> e in w.pending
    case InjectPacket(_, p) => Known(corrupt, w, p.signature)
    case InjectReceipt(_, r) => Known(corrupt, w, r.signature)
  }

  /** A signature that was issued, or that a corrupt node can make. */
  ghost predicate Known(corrupt: set<NodeId>, w: World, s: Option<Signature>) {
    s.Some? ==> s.value in w.issued || s.value.signer in corrupt
  }

  ghost predicate EnvOk(links: Adjacency, ttl: int, env: Env) {
    env.ttl == ttl && forall n :: Neighbors(env.adj, n) == Neighbors(links, n)
  }

  function Generated(w: World): World {
    w.(stats := w.stats.(generated := w.stats.generated + 1))
  }

  function Apply(w: World, a: Action): World {
    match a
    case Originate(env, src, dst, copies) =>
      Generated(SendCopies(env, w.(origin := w.origin + [(src, dst)]), |w.origin|, src, dst, copies).world)
    case Receive(env, node, p, ch) => Arrive(env, w, node, p, {}, ch).0
    case Return(env, node, r) => Credit(env, w, node, r)
    case Timeout(late) => Sweep(w, late)
    case InjectPacket(to, p) => w.(frames := w.frames + {(p, to)})
    case InjectReceipt(to, r) => w.(receipts := w.receipts + {(r, to)})
  }

  const EMPTY := World(Stats(0, [], map[], 0, {}, 0, {}, 0, 0, 0, 0), {}, map[], multiset{}, multiset{}, multiset{}, {},
    {}, {}, [], {}, {})

  function After(acts: seq<Action>): World {
    if |acts| == 0 then EMPTY else Apply(After(acts[..|acts| - 1]), acts[|acts| - 1])
  }

  /** A run: every action was possible when it happened. */
  ghost predicate Run(links: Adjacency, ttl: int, corrupt: set<NodeId>, acts: seq<Action>) {
    |acts| == 0 ||
    (&& Run(links, ttl, corrupt, acts[..|acts| - 1])
     && Enabled(links, ttl, corrupt, After(acts[..|acts| - 1]), acts[|acts| - 1]))
  }

  /** Nothing was injected: all messages were sent by nodes that follow the protocol. */
  ghost predicate HonestRun(acts: seq<Action>) {
    forall i :: 0 <= i < |acts| ==> !acts[i].InjectPacket? && !acts[i].InjectReceipt?
  }
}
