/** What holds in every cluster that any sequence of steps can reach, read off its shared counters. */
module ClusterRuns {
  import opened Network
  import opened Packets
  import opened DaemonState
  import opened DaemonSafety
  import opened DaemonHonest
  import opened Cluster
  import opened Daemon

  /** Whatever has happened, also with corrupt nodes that sign as themselves whatever they like: each node accepts
      each id once, deliveries that claim another source are distinct packets that were originated there, and
      confirmed, timed-out and pending verdicts are those that were opened. */
  lemma Guarantees(c: LocalCluster)
    requires c.Valid()
    ensures var d := c.stats.delivered;
      && (forall i, j :: 0 <= i < j < |d| ==> d[i].id != d[j].id || d[i].dst != d[j].dst)
      && (forall i, j :: 0 <= i < j < |d| && d[i].src !in c.corrupt && d[j].src !in c.corrupt ==> d[i].id != d[j].id)
      && (forall i :: 0 <= i < |d| && d[i].src !in c.corrupt ==> Originated(After(c.acts), d[i].id, d[i].src, d[i].dst))
      && |HonestIds(c.corrupt, d)| <= c.stats.generated == c.packetIds && (c.corrupt == {} ==> |d| <= c.stats.generated)
    ensures c.stats.receiptsConfirmed + c.stats.receiptTimeouts + |After(c.acts).pending| == |After(c.acts).entered|
    ensures forall f :: f in After(c.acts).frames ==>
      InjectedPacket(c.acts, f) || exists n :: n in c.protocols && f in Posted(c.protocols[n].sent)
    ensures forall r :: r in After(c.acts).receipts ==>
      InjectedReceipt(c.acts, r) || exists n :: n in c.protocols && r in c.protocols[n].receiptsSent
    ensures forall n :: n in c.protocols ==> Posted(c.protocols[n].sent) <= After(c.acts).frames
  {
    AtMostOnce(c.links, c.ttl, c.corrupt, c.acts);
    Accounting(c.links, c.ttl, c.corrupt, c.acts);
    RunSafe(c.links, c.ttl, c.corrupt, c.acts);
  }

  /** Where nothing is injected it does not matter who is corrupt. */
  lemma {:induction false} HonestIsClean(links: Adjacency, ttl: int, corrupt: set<NodeId>, acts: seq<Action>)
    requires Run(links, ttl, corrupt, acts) && HonestRun(acts)
    ensures Run(links, ttl, {}, acts)
  {
    if |acts| > 0 {
      HonestIsClean(links, ttl, corrupt, acts[..|acts| - 1]);
    }
  }

  /** Without an attacker, what was delivered took a simple walk within its TTL, and exposure counts are in order. */
  lemma HonestGuarantees(c: LocalCluster)
    requires c.Valid() && HonestRun(c.acts) && Irreflexive(c.links) && Undirected(c.links) && c.ttl >= 0
    ensures forall i :: 0 <= i < |c.stats.delivered| ==>
      var p := c.stats.delivered[i]; Walked(c.links, c.ttl, p, p.dst) && p.hops <= c.ttl && p.hops <= |c.links| - 1
    ensures c.stats.transitSybilTouched <= c.stats.sybilTouched <= c.stats.generated
    ensures BadSignature !in c.stats.dropped
  {
    HonestIsClean(c.links, c.ttl, c.corrupt, c.acts);
    hide Walked, Run, After;
    ExposureBounds(c.links, c.ttl, c.acts);
    forall i | 0 <= i < |c.stats.delivered|
      ensures var p := c.stats.delivered[i];
        Walked(c.links, c.ttl, p, p.dst) && p.hops <= c.ttl && p.hops <= |c.links| - 1
    {
      WalkBounds(c.links, c.ttl, c.acts, c.stats.delivered[i], c.stats.delivered[i].dst);
    }
  }
}
