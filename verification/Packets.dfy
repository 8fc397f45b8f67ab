/** Packets (aegis_router/packet.py) and their origin signatures, which are ideal: a signature is the
    statement that was signed, and only its signer can have made it. */
module Packets {
  import opened Network

  /** The immutable fields an origin signs, and a destination confirms. */
  datatype Body = Body(id: nat, src: NodeId, dst: NodeId, createdAt: real)

  /** Packets and receipts sign the same fields; who signed them tells the two apart. */
  datatype Signature = Signed(signer: NodeId, body: Body)

  datatype Packet = Packet(id: nat, src: NodeId, dst: NodeId, createdAt: real, ttl: int, node: NodeId,
      visited: set<NodeId>, path: seq<NodeId>, hops: nat, latency: real, queueDelay: real, lossRisk: real,
      touchedSybil: bool, touchedTransit: bool, signature: Option<Signature>, lastFrom: Option<NodeId>,
      lastNeighbor: Option<NodeId>)
  {
    function Content(): Body {
      Body(id, src, dst, createdAt)
    }
  }

  /** A packet as its constructor leaves it, at its source. */
  function NewPacket(id: nat, src: NodeId, dst: NodeId, createdAt: real, ttl: int): Packet {
    Packet(id, src, dst, createdAt, ttl, src, {}, [], 0, 0.0, 0.0, 0.0, false, false, None, None, None)
  }

  predicate Verified(p: Packet) {
    p.signature == Some(Signed(p.src, p.Content()))
  }

  datatype Reason = BadSignature | NodeDown | Loop | TtlExpired | NoRoute | LinkLoss | SybilDrop

  /** What a solver is told about one of its own forwards (the arguments of observe_result). */
  datatype Observation = Observation(neighbor: NodeId, delivered: bool, dropped: bool, reason: Option<Reason>,
      from: Option<NodeId>, receiptConfirmed: bool)
}
