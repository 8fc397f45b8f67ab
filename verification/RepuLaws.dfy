/** What the parts of a RepuLink recompute come to, in terms of outcomes and endorsements: which way evidence moves
    reputation, who is held to account for whom, and how the two layers mix. */
module RepuLaws {
  import opened Network
  import opened PowerIteration
  import opened Sequences
  import opened SparseVectors
  import opened Reals
  import opened Evidence
  import opened RepuLink

  // ---- layers ---------------------------------------------------------------------------

  function Own(s: NodeId): Vec {
    t => if s == t then 1.0 else 0.0
  }

  /** With full interaction weight only interactions count, with none only endorsements. */
  lemma MixedEnds(ns: seq<NodeId>, inter: NodeId -> Vec, endorse: NodeId -> Vec, s: NodeId, t: NodeId)
    ensures Mixed(ns, 1.0, inter, endorse)(s, t) == OrSelf(ns, inter)(s, t)
    ensures Mixed(ns, 0.0, inter, endorse)(s, t) == OrSelf(ns, endorse)(s, t)
  {
  }

  /** A node passes its reputation on along its evidence, and keeps it where it has none. */
  lemma InteractionLayer(ns: seq<NodeId>, delivered: map<Edge, real>, drops: map<Edge, real>, s: NodeId)
    ensures var c := OrSelf(ns, NetEvidence(delivered, drops));
      if exists t :: t in ns && Earns(delivered, drops, s, t) then EvidenceRow(ns, delivered, drops, s, t => c(s, t))
      else forall t :: c(s, t) == if s == t then 1.0 else 0.0
  {
    hide Sum, Score, Earns, EvidenceRow;
    var c := OrSelf(ns, NetEvidence(delivered, drops));
    SomeEarned(ns, delivered, drops, s);
    if Sum(ns, Scores(delivered, drops, s)) > 0.0 {
      SharesAreEvidence(ns, delivered, drops, s, t => c(s, t));
    }
  }

  /** Whatever the layers' weights, one more delivery by a peer never lowers what it gets, and one more drop never
      raises it. */
  lemma OneMoreInteraction(ns: seq<NodeId>, alpha: real, delivered: map<Edge, real>, drops: map<Edge, real>,
      endorse: NodeId -> Vec, s: NodeId, t: NodeId)
    requires Distinct(ns) && t in ns && 0.0 <= alpha <= 1.0
    ensures Mixed(ns, alpha, NetEvidence(delivered, Incremented(drops, (s, t))), endorse)(s, t)
         <= Mixed(ns, alpha, NetEvidence(delivered, drops), endorse)(s, t)
         <= Mixed(ns, alpha, NetEvidence(Incremented(delivered, (s, t)), drops), endorse)(s, t)
  {
    hide OrSelf, Mixed, Favours, Incremented;
    OutcomeFavours(delivered, drops, s, t);
    BetterShare(ns, delivered, Incremented(drops, (s, t)), delivered, drops, s, t);
    BetterShare(ns, delivered, drops, Incremented(delivered, (s, t)), drops, s, t);
    MixedRises(ns, alpha, NetEvidence(delivered, Incremented(drops, (s, t))), NetEvidence(delivered, drops), endorse, s,
      t);
    MixedRises(ns, alpha, NetEvidence(delivered, drops), NetEvidence(Incremented(delivered, (s, t)), drops), endorse, s,
      t);
  }

  lemma MixedRises(ns: seq<NodeId>, alpha: real, inter: NodeId -> Vec, inter': NodeId -> Vec, endorse: NodeId -> Vec,
      s: NodeId, t: NodeId)
    requires alpha >= 0.0 && OrSelf(ns, inter)(s, t) <= OrSelf(ns, inter')(s, t)
    ensures Mixed(ns, alpha, inter, endorse)(s, t) <= Mixed(ns, alpha, inter', endorse)(s, t)
  {
    hide OrSelf;
    ScaledLeq(alpha, OrSelf(ns, inter)(s, t), OrSelf(ns, inter')(s, t));
  }

  lemma BetterShare(ns: seq<NodeId>, delivered: map<Edge, real>, drops: map<Edge, real>, delivered': map<Edge, real>,
      drops': map<Edge, real>, s: NodeId, t: NodeId)
    requires Distinct(ns) && t in ns && Favours(delivered, drops, delivered', drops', s, t)
    ensures OrSelf(ns, NetEvidence(delivered, drops))(s, t) <= OrSelf(ns, NetEvidence(delivered', drops'))(s, t)
  {
    hide Favours, Score, Sum;
    ScoresFavour(delivered, drops, delivered', drops', s, t);
    ShareRises(ns, Scores(delivered, drops, s), Scores(delivered', drops', s), Own(s), t, t);
  }

  // ---- projection -----------------------------------------------------------------------

  /** A projection takes what is positive, in its ratios, and nothing else, or falls back if nothing is. */
  lemma ProjectTakesPositive(ns: seq<NodeId>, v: map<NodeId, real>, fallback: map<NodeId, real>)
    ensures var r := Project(ns, v, fallback);
      if exists n :: n in ns && Value(v)(n) > 0.0
      then && Distribution(ns, Value(r)) && r.Keys == Elements(ns)
           && (forall n :: n in ns ==> (r[n] > 0.0 <==> Value(v)(n) > 0.0))
           && forall n, m :: n in ns && m in ns && Value(v)(n) > 0.0 && Value(v)(m) > 0.0 ==>
                InRatio(r[n], Value(v)(n), r[m], Value(v)(m))
      else r == fallback
  {
    hide Sum, InRatio;
    var f, r := Positive(Value(v)), Project(ns, v, fallback);
    SumPositive(ns, f);
    if exists n :: n in ns && Value(v)(n) > 0.0 {
      var n :| n in ns && Value(v)(n) > 0.0;
      assert f(n) > 0.0;
      ProjectIsShare(ns, v, fallback);
    }
  }

  lemma ProjectIsShare(ns: seq<NodeId>, v: map<NodeId, real>, fallback: map<NodeId, real>)
    requires Sum(ns, Positive(Value(v))) > 0.0
    ensures var r := Project(ns, v, fallback);
      && Distribution(ns, Value(r)) && r.Keys == Elements(ns)
      && (forall n :: n in ns ==> (r[n] > 0.0 <==> Value(v)(n) > 0.0))
      && forall n, m :: n in ns && m in ns && Value(v)(n) > 0.0 && Value(v)(m) > 0.0 ==>
           InRatio(r[n], Value(v)(n), r[m], Value(v)(m))
  {
    hide Sum, InRatio, Distribution;
    var f, r := Positive(Value(v)), Project(ns, v, fallback);
    var total := Sum(ns, f);
    forall n | n in ns ensures n in r && r[n] == f(n) / total && Value(r)(n) == r[n] {
      assert n in Elements(ns);
    }
    Normalized(ns, f, total, Value(r));
    forall n | n in ns ensures r[n] > 0.0 <==> Value(v)(n) > 0.0 { SharePositive(f(n), total); }
    forall n, m | n in ns && m in ns && Value(v)(n) > 0.0 && Value(v)(m) > 0.0
      ensures InRatio(r[n], Value(v)(n), r[m], Value(v)(m))
    {
      SharesInRatio(f(n), f(m), total);
    }
  }

  // ---- signals --------------------------------------------------------------------------

  /** One more outcome counts once, for the node it is about, whoever has seen it. */
  lemma ReceivedCounts(ns: seq<NodeId>, evidence: map<Edge, real>, s: NodeId, n: NodeId, m: NodeId)
    requires Distinct(ns) && s in ns
    ensures Received(ns, Incremented(evidence, (s, n)), m) == Received(ns, evidence, m) + if m == n then 1.0 else 0.0
  {
    var f: Vec, g: Vec := o => Count(evidence, (o, m)), o => Count(Incremented(evidence, (s, n)), (o, m));
    SumChange(ns, f, g, s);
    SumCongruent(ns, f, o => Count(evidence, (o, m)));
    SumCongruent(ns, g, o => Count(Incremented(evidence, (s, n)), (o, m)));
  }

  /** A node has received evidence exactly when somebody has counted an outcome of it. */
  lemma ReceivedFromSome(ns: seq<NodeId>, evidence: map<Edge, real>, n: NodeId)
    requires KnownEvidence(ns, evidence)
    ensures Received(ns, evidence, n) > 0.0 <==> exists s :: s in ns && Count(evidence, (s, n)) > 0.0
  {
    var f: Vec := s => Count(evidence, (s, n));
    SumPositive(ns, f);
    SumCongruent(ns, f, s => Count(evidence, (s, n)));
    assert forall s :: f(s) == Count(evidence, (s, n));
  }

  // ---- cold start -----------------------------------------------------------------------

  lemma LayerPositive(ns: seq<NodeId>, m: map<Edge, real>, s: NodeId, t: NodeId)
    requires KnownEvidence(ns, m) && t in ns
    ensures Normal(ns, Weights(m))(s, t) >= 0.0
    ensures Normal(ns, Weights(m))(s, t) > 0.0 <==> Count(m, (s, t)) > 0.0
  {
    hide Sum, Count, KnownEvidence;
    CountsNonNegative(ns, m);
    var w := Weights(m)(s);
    SumPositive(ns, w);
    if Sum(ns, w) > 0.0 { SharePositive(w(t), Sum(ns, w)); }
  }

  ghost predicate EndorsedBySome(ns: seq<NodeId>, m: map<Edge, real>, n: NodeId) {
    exists e :: e in ns && Count(m, (e, n)) > 0.0
  }

  /** At the start reputation goes to exactly the endorsed nodes, and without endorsements to all alike. */
  lemma ColdStartEndorsed(ledger: RepuLinkLedger, r: map<NodeId, real>)
    requires ledger.Valid() && ledger.IsColdStart(r)
    ensures var ns := ledger.nodes;
      if exists n :: n in ns && EndorsedBySome(ns, ledger.endorsements, n)
      then forall n :: n in ns ==> (r[n] > 0.0 <==> EndorsedBySome(ns, ledger.endorsements, n))
      else forall n :: n in ns ==> r[n] == 1.0 / |ns| as real
  {
    hide Project, Normal, Weights, Inflow, Distribution, EndorsedBySome, KnownEvidence, Saturating;
    var ns, uniform := ledger.nodes, ledger.UniformShare();
    var initial :| r == Project(ns, initial, uniform) &&
      forall t :: t in ns ==> Value(initial)(t) == Inflow(ns, ledger.Layer(), Value(uniform), t);
    forall n | n in ns ensures n in Elements(ns) {}
    forall n | n in ns ensures Value(initial)(n) > 0.0 <==> EndorsedBySome(ns, ledger.endorsements, n) {
      InflowEndorsed(ns, ledger.endorsements, uniform, n);
    }
    ProjectTakesPositive(ns, initial, uniform);
  }

  lemma InflowEndorsed(ns: seq<NodeId>, m: map<Edge, real>, uniform: map<NodeId, real>, n: NodeId)
    requires KnownEvidence(ns, m) && n in ns && |ns| > 0
    requires uniform == map s | s in Elements(ns) :: 1.0 / |ns| as real
    ensures Inflow(ns, Normal(ns, Weights(m)), Value(uniform), n) > 0.0 <==> EndorsedBySome(ns, m, n)
  {
    hide Normal, Sum, KnownEvidence, Weights, Count;
    var c := Normal(ns, Weights(m));
    var terms: Vec := s => Value(uniform)(s) * c(s, n);
    SharePositive(1.0, |ns| as real);
    forall s | s in ns ensures terms(s) >= 0.0 && (terms(s) > 0.0 <==> Count(m, (s, n)) > 0.0) {
      assert s in Elements(ns);
      LayerPositive(ns, m, s, n);
      Products(Value(uniform)(s), c(s, n));
    }
    SumPositive(ns, terms);
    SumCongruent(ns, terms, s => Value(uniform)(s) * c(s, n));
  }

  // ---- who answers for whom -------------------------------------------------------------

  /** A chain of exactly k endorsements from n to a node of which somebody has counted an outcome. */
  ghost predicate Vouches(ns: seq<NodeId>, endorsements: map<Edge, real>, evidence: map<Edge, real>, k: nat,
      n: NodeId)
  {
    n in ns &&
    if k == 0 then EndorsedBySome(ns, evidence, n)
    else exists t :: Count(endorsements, (n, t)) > 0.0 && Vouches(ns, endorsements, evidence, k - 1, t)
  }

  lemma {:induction false} ChainVouches(ns: seq<NodeId>, m: map<Edge, real>, evidence: map<Edge, real>, f: Vec, k: nat,
      n: NodeId)
    requires KnownEvidence(ns, m) && forall t :: t in ns ==> (f(t) > 0.0 <==> EndorsedBySome(ns, evidence, t))
    ensures Chain(ns, Normal(ns, Weights(m)), f, k, n) <==> Vouches(ns, m, evidence, k, n)
  {
    hide Normal, Weights, KnownEvidence, EndorsedBySome, Count;
    if k > 0 && n in ns {
      var c := Normal(ns, Weights(m));
      forall t
        ensures c(n, t) > 0.0 && Chain(ns, c, f, k - 1, t) <==>
          Count(m, (n, t)) > 0.0 && Vouches(ns, m, evidence, k - 1, t)
      {
        ChainVouches(ns, m, evidence, f, k - 1, t);
        if t in ns { LayerPositive(ns, m, n, t); }
      }
    }
  }

  ghost predicate Answers(ns: seq<NodeId>, endorsements: map<Edge, real>, evidence: map<Edge, real>, hops: nat,
      n: NodeId)
  {
    exists i :: 1 <= i <= hops && Vouches(ns, endorsements, evidence, i, n)
  }

  lemma ReachVouches(ns: seq<NodeId>, m: map<Edge, real>, evidence: map<Edge, real>, discount: real, f: Vec, hops: nat,
      n: NodeId)
    requires KnownEvidence(ns, m) && discount >= 0.0 && n in ns
    requires forall t :: t in ns ==> f(t) >= 0.0 && (f(t) > 0.0 <==> EndorsedBySome(ns, evidence, t))
    ensures Accumulated(ns, Normal(ns, Weights(m)), discount, f, hops, n) > 0.0 <==>
      discount > 0.0 && Answers(ns, m, evidence, hops, n)
  {
    hide Normal, Weights, KnownEvidence, EndorsedBySome, Substochastic, Accumulated, Chain, Vouches, NonNegative;
    WeightsNonNegative(ns, m);
    NormalSubstochastic(ns, Weights(m));
    BackwardReach(ns, Normal(ns, Weights(m)), discount, f, hops, n);
    var c := Normal(ns, Weights(m));
    if i: nat :| 1 <= i <= hops && Chain(ns, c, f, i, n) {
      ChainVouches(ns, m, evidence, f, i, n);
    }
    if i: nat :| 1 <= i <= hops && Vouches(ns, m, evidence, i, n) {
      ChainVouches(ns, m, evidence, f, i, n);
    }
  }

  /** Exactly the endorsers, over some number of hops within the limit, of a node with outcomes are held to account for
      it, if anything is passed back at all; its direct endorsers always. */
  lemma AccountReach(ledger: RepuLinkLedger, evidence: map<Edge, real>, sums: map<NodeId, real>) returns (hops: nat)
    requires ledger.Valid() && KnownEvidence(ledger.nodes, evidence)
    requires Accounts(ledger.nodes, ledger.Layer(), ledger.backwardDiscount, Value(ledger.Signal(evidence)),
      ledger.tolerance, ledger.maxBackwardHops, sums)
    ensures 1 <= hops <= ledger.maxBackwardHops
    ensures forall n :: n in ledger.nodes ==> (Value(sums)(n) > 0.0 <==>
      ledger.backwardDiscount > 0.0 && Answers(ledger.nodes, ledger.endorsements, evidence, hops, n))
  {
    hide Normal, Weights, KnownEvidence, EndorsedBySome, Accumulated, Answers, Saturating, Distribution, Value;
    var ns, d, m := ledger.nodes, ledger.backwardDiscount, ledger.endorsements;
    var f := Value(ledger.Signal(evidence));
    var k: nat :| StopsAt(ns, ledger.Layer(), d, f, ledger.tolerance, ledger.maxBackwardHops, k) &&
      forall n :: n in ns ==> Value(sums)(n) == Accumulated(ns, ledger.Layer(), d, f, k, n);
    hops := k;
    forall t | t in ns ensures f(t) >= 0.0 && (f(t) > 0.0 <==> EndorsedBySome(ns, evidence, t)) {
      SignalPositive(ledger, evidence, t);
    }
    forall n | n in ns ensures Value(sums)(n) > 0.0 <==> d > 0.0 && Answers(ns, m, evidence, hops, n) {
      ReachVouches(ns, m, evidence, d, f, hops, n);
    }
  }

  /** A signal is positive exactly for the nodes with outcomes. */
  lemma SignalPositive(ledger: RepuLinkLedger, evidence: map<Edge, real>, n: NodeId)
    requires ledger.Valid() && KnownEvidence(ledger.nodes, evidence) && n in ledger.nodes
    ensures var x := Value(ledger.Signal(evidence))(n);
      0.0 <= x < 1.0 && (x > 0.0 <==> EndorsedBySome(ledger.nodes, evidence, n))
  {
    hide KnownEvidence, Distribution;
    assert n in Elements(ledger.nodes);
    ReceivedNonNegative(ledger.nodes, evidence, n);
    ReceivedFromSome(ledger.nodes, evidence, n);
  }

  // ---- which way evidence moves reputation ----------------------------------------------

  /** Two ledgers over the same nodes and endorsements, with the same settings. */
  ghost predicate Alike(a: RepuLinkLedger, b: RepuLinkLedger)
    reads a, b
  {
    && a.nodes == b.nodes && a.endorsements == b.endorsements && a.saturate == b.saturate
    && a.backwardDiscount == b.backwardDiscount && a.tolerance == b.tolerance
    && a.maxBackwardHops == b.maxBackwardHops
  }

  /** The accounts are those of the ledger's evidence, as a recompute leaves them. */
  ghost predicate Accounted(a: RepuLinkLedger)
    reads a
  {
    && Accounts(a.nodes, a.Layer(), a.backwardDiscount, Value(a.Signal(a.drops)), a.tolerance, a.maxBackwardHops,
                a.penalty)
    && Accounts(a.nodes, a.Layer(), a.backwardDiscount, Value(a.Signal(a.delivered)), a.tolerance, a.maxBackwardHops,
                a.reward)
  }

  ghost predicate NoMore(m: map<Edge, real>, m': map<Edge, real>) {
    forall e :: Count(m, e) <= Count(m', e)
  }

  /** Somebody has counted more outcomes of n. */
  ghost predicate MoreOf(ns: seq<NodeId>, m: map<Edge, real>, m': map<Edge, real>, n: NodeId) {
    exists s :: s in ns && Count(m, (s, n)) < Count(m', (s, n))
  }

  lemma ReceivedRises(ns: seq<NodeId>, m: map<Edge, real>, m': map<Edge, real>, n: NodeId)
    requires NoMore(m, m')
    ensures Received(ns, m, n) <= Received(ns, m', n)
    ensures MoreOf(ns, m, m', n) ==> Received(ns, m, n) < Received(ns, m', n)
  {
    hide Sum, Count;
    var f: Vec, g: Vec := s => Count(m, (s, n)), s => Count(m', (s, n));
    var gap: Vec := s => Count(m', (s, n)) - Count(m, (s, n));
    SumLinear(ns, 1.0, g, -1.0, f, gap);
    SumPositive(ns, gap);
    SumCongruent(ns, f, s => Count(m, (s, n)));
    SumCongruent(ns, g, s => Count(m', (s, n)));
    if MoreOf(ns, m, m', n) {
      var s :| s in ns && Count(m, (s, n)) < Count(m', (s, n));
      assert gap(s) > 0.0;
    }
  }

  lemma SignalRises(a: RepuLinkLedger, b: RepuLinkLedger, m: map<Edge, real>, m': map<Edge, real>, n: NodeId)
    requires a.Valid() && b.Valid() && Alike(a, b) && NoMore(m, m') && KnownEvidence(a.nodes, m) && n in a.nodes
    ensures 0.0 <= Value(a.Signal(m))(n) <= Value(b.Signal(m'))(n)
    ensures MoreOf(a.nodes, m, m', n) ==> Value(a.Signal(m))(n) < Value(b.Signal(m'))(n)
  {
    hide KnownEvidence, Distribution, NoMore, MoreOf, Received;
    assert n in Elements(a.nodes);
    ReceivedNonNegative(a.nodes, m, n);
    ReceivedRises(a.nodes, m, m', n);
  }

  lemma AccountsRise(a: RepuLinkLedger, b: RepuLinkLedger, m: map<Edge, real>, m': map<Edge, real>,
      sums: map<NodeId, real>, sums': map<NodeId, real>, n: NodeId)
    requires a.Valid() && b.Valid() && Alike(a, b) && NoMore(m, m') && KnownEvidence(a.nodes, m) && n in a.nodes
    requires Accounts(a.nodes, a.Layer(), a.backwardDiscount, Value(a.Signal(m)), a.tolerance, a.maxBackwardHops, sums)
    requires Accounts(b.nodes, b.Layer(), b.backwardDiscount, Value(b.Signal(m')), b.tolerance, b.maxBackwardHops,
      sums')
    ensures Value(sums)(n) <= Value(sums')(n)
  {
    hide KnownEvidence, Distribution, NoMore, Received, Normal, Weights, Saturating, Value, StopsAt, Accumulated,
         Substochastic, NonNegative;
    var ns, c, d, f, g := a.nodes, a.Layer(), a.backwardDiscount, Value(a.Signal(m)), Value(b.Signal(m'));
    var j: nat :| StopsAt(ns, c, d, f, a.tolerance, a.maxBackwardHops, j) &&
      forall n :: n in ns ==> Value(sums)(n) == Accumulated(ns, c, d, f, j, n);
    var k: nat :| StopsAt(ns, c, d, g, b.tolerance, b.maxBackwardHops, k) &&
      forall n :: n in ns ==> Value(sums')(n) == Accumulated(ns, c, d, g, k, n);
    WeightsNonNegative(ns, a.endorsements);
    NormalSubstochastic(ns, Weights(a.endorsements));
    forall t | t in ns ensures 0.0 <= f(t) <= g(t) { SignalRises(a, b, m, m', t); }
    BackwardMonotone(ns, c, d, f, g, a.tolerance, a.maxBackwardHops, j, k, n);
  }

  lemma ProjectCongruent(ns: seq<NodeId>, v: map<NodeId, real>, w: map<NodeId, real>, fallback: map<NodeId, real>)
    requires forall t :: t in ns ==> Value(v)(t) == Value(w)(t)
    ensures Project(ns, v, fallback) == Project(ns, w, fallback)
  {
    hide Value, Sum;
    var f, g := Positive(Value(v)), Positive(Value(w));
    assert forall t :: t in ns ==> f(t) == g(t);
    SumCongruent(ns, f, g);
    var total := Sum(ns, f);
    if total > 0.0 {
      forall n | n in Elements(ns) ensures f(n) / total == g(n) / total {}
    }
  }

  /** The cold start is determined by nodes and endorsements. */
  lemma ColdStartUnique(a: RepuLinkLedger, b: RepuLinkLedger, r: map<NodeId, real>, r': map<NodeId, real>)
    requires a.IsColdStart(r) && b.IsColdStart(r') && Alike(a, b)
    ensures r == r'
  {
    hide Inflow, Normal, Distribution, Weights, Project, Value;
    var ns, uniform := a.nodes, a.UniformShare();
    var v :| r == Project(ns, v, uniform) &&
      forall t :: t in ns ==> Value(v)(t) == Inflow(ns, a.Layer(), Value(uniform), t);
    var w :| r' == Project(ns, w, uniform) &&
      forall t :: t in ns ==> Value(w)(t) == Inflow(ns, b.Layer(), Value(uniform), t);
    ProjectCongruent(ns, v, w, uniform);
  }

  /** More deliveries and fewer drops, counted by anyone about anyone, lower nobody's reputation before projection, with
      accountability and its early exit included; they raise that of the nodes they are about, and of everyone whose
      reward grows or whose penalty falls. */
  lemma BetterEvidence(a: RepuLinkLedger, b: RepuLinkLedger, cold: map<NodeId, real>, cold': map<NodeId, real>,
      n: NodeId)
    requires a.Valid() && b.Valid() && Alike(a, b) && Accounted(a) && Accounted(b) && n in a.nodes
    requires a.IsColdStart(cold) && b.IsColdStart(cold')
    requires NoMore(a.delivered, b.delivered) && NoMore(b.drops, a.drops)
    ensures Value(a.Raw(cold))(n) <= Value(b.Raw(cold'))(n)
    ensures (|| MoreOf(a.nodes, a.delivered, b.delivered, n) || MoreOf(a.nodes, b.drops, a.drops, n)
             || Value(a.reward)(n) < Value(b.reward)(n) || Value(b.penalty)(n) < Value(a.penalty)(n)) ==>
      Value(a.Raw(cold))(n) < Value(b.Raw(cold'))(n)
  {
    ColdStartUnique(a, b, cold, cold');
    SignalRises(a, b, a.delivered, b.delivered, n);
    SignalRises(b, a, b.drops, a.drops, n);
    hide Accounts, KnownEvidence, Distribution, NoMore, MoreOf, Saturating, RepuLinkLedger.Signal;
    AccountsRise(a, b, a.delivered, b.delivered, a.reward, b.reward, n);
    AccountsRise(b, a, b.drops, a.drops, b.penalty, a.penalty, n);
    assert n in Elements(a.nodes);
  }
}
