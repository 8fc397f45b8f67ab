/** What the learning solvers make of outcomes: which observations raise a peer's risk and which lower it, how evidence
    ages, and what it does to scores and trusted paths. */
module LearningLaws {
  import opened Network
  import opened Packets
  import opened Reputation
  import opened EdgeSolver
  import opened Reals

  // ---- badness --------------------------------------------------------------------------

  /** Of equally many more failures, node_down weighs least, then ttl_expired, link_loss and loop. */
  lemma FailureWeights(c: Counters, k: real)
    requires c.NonNegative() && k > 0.0
    ensures var down, ttl := c.(nodeDown := c.nodeDown + k), c.(ttlExpired := c.ttlExpired + k);
      var loss, loop := c.(linkLosses := c.linkLosses + k), c.(loops := c.loops + k);
      && c.Badness() <= down.Badness() <= ttl.Badness() <= loss.Badness() <= loop.Badness()
      && (c.Badness() < 1.0 ==>
            c.Badness() < down.Badness() && (down.Badness() < 1.0 ==> down.Badness() < ttl.Badness())
            && (ttl.Badness() < 1.0 ==> ttl.Badness() < loss.Badness())
            && (loss.Badness() < 1.0 ==> loss.Badness() < loop.Badness()))
  {
    var w, t := c.Weighted(), c.delivered + c.drops + 8.0;
    StrictFraction(w, w + 0.05 * k, t);
    StrictFraction(w + 0.05 * k, w + 0.25 * k, t);
    StrictFraction(w + 0.25 * k, w + 0.35 * k, t);
    StrictFraction(w + 0.35 * k, w + 0.5 * k, t);
    assert c.(nodeDown := c.nodeDown + k).Weighted() == w + 0.05 * k;
    assert c.(ttlExpired := c.ttlExpired + k).Weighted() == w + 0.25 * k;
    assert c.(linkLosses := c.linkLosses + k).Weighted() == w + 0.35 * k;
    assert c.(loops := c.loops + k).Weighted() == w + 0.5 * k;
  }

  // ---- one observation -------------------------------------------------------------------

  /** The peer's risk once the outcome has been observed. */
  function RiskAfter(s: Settings, m: Memory, o: Observation): (r: real)
    requires s.windowSize > 0 && MemoryOk(m)
    ensures r == Risk(Observed(s, m, o).peerRisk, o.neighbor)
  {
    Observed(s, m, o).peerRisk[o.neighbor]
  }

  /** What the peer has on its account by then. */
  function EvidenceAfter(s: Settings, m: Memory, o: Observation): (c: Counters)
    requires s.windowSize > 0 && MemoryOk(m)
    ensures c.NonNegative()
  {
    ObservedOk(s, m, o);
    PeerOk(Observed(s, m, o), o.neighbor);
    Peer(Observed(s, m, o).peerScores, o.neighbor)
  }

  /** What is left of the peer's recent risk. */
  function Faded(s: Settings, m: Memory, n: NodeId): real {
    By(Risk(m.peerRisk, n), s.reputationDecay)
  }

  /** Badness of the peer by the evidence so far. */
  function BadnessOf(m: Memory, n: NodeId): real
    requires MemoryOk(m)
  {
    PeerOk(m, n);
    Peer(m.peerScores, n).Badness()
  }

  predicate Delivery(o: Observation) { o.delivered && !o.dropped && o.reason.None? }
  predicate Neither(o: Observation) { !o.delivered && !o.dropped && o.reason.None? }
  predicate Churn(o: Observation) { !o.delivered && o.dropped && o.reason == Some(NodeDown) }
  predicate Failure(o: Observation) { !o.delivered && o.dropped && o.reason != Some(NodeDown) }

  /** The counters after one more failure for the given reason. */
  function Failed(c: Counters, reason: Option<Reason>): Counters {
    var d := c.(drops := c.drops + 1.0);
    if reason == Some(LinkLoss) then d.(linkLosses := d.linkLosses + 1.0)
    else if reason == Some(Loop) then d.(loops := d.loops + 1.0)
    else if reason == Some(TtlExpired) then d.(ttlExpired := d.ttlExpired + 1.0)
    else d
  }

  function Clamp(x: real): real { Max(0.0, Min(1.0, x)) }

  /** What each kind of outcome does to the recent risk and to the counters. */
  lemma OutcomeParts(s: Settings, m: Memory, o: Observation)
    requires s.windowSize > 0 && MemoryOk(m) && (Delivery(o) || Neither(o) || Churn(o) || Failure(o))
    ensures var c, x := Peer(m.peerScores, o.neighbor), Faded(s, m, o.neighbor);
      var d := EvidenceAfter(s, m, o);
      && c.NonNegative()
      && RiskAfter(s, m, o) == 0.5 * (d.Badness() + Clamp(
           if Delivery(o) then x - 0.15 else if Neither(o) then x else if Churn(o) then x + 0.15 else x + 1.0))
      && (Delivery(o) ==> d == c.(delivered := c.delivered + 1.0))
      && (Neither(o) ==> d == c)
      && (Churn(o) ==> d == c.(nodeDown := c.nodeDown + 1.0))
      && (Failure(o) ==> d == Failed(c, o.reason))
  {
    hide MemoryOk, Counters.NonNegative, Counters.Badness, Counters.Plus, AdaptedBudget, Pushed, EwmaRisk, Gain, Clamp;
    PeerOk(m, o.neighbor);
    PlusNonNegative(Peer(m.peerScores, o.neighbor), o);
    RecentPart(s, m, o);
    CounterPart(Peer(m.peerScores, o.neighbor), o);
  }

  lemma RecentPart(s: Settings, m: Memory, o: Observation)
    requires Delivery(o) || Neither(o) || Churn(o) || Failure(o)
    ensures var x := Faded(s, m, o.neighbor);
      EwmaRisk(s, Risk(m.peerRisk, o.neighbor), o) == Clamp(
        if Delivery(o) then x - 0.15 else if Neither(o) then x else if Churn(o) then x + 0.15 else x + 1.0)
  {
  }

  lemma CounterPart(c: Counters, o: Observation)
    ensures var d := c.Plus(Gain(o));
      && (Delivery(o) ==> d == c.(delivered := c.delivered + 1.0))
      && (Neither(o) ==> d == c)
      && (Churn(o) ==> d == c.(nodeDown := c.nodeDown + 1.0))
      && (Failure(o) ==> d == Failed(c, o.reason))
  {
  }

  /** From the same memory, a delivery leaves a peer less risky than no outcome at all, and that less than churn. */
  lemma RiskOrder(s: Settings, m: Memory, delivery: Observation, neither: Observation, churn: Observation)
    requires s.windowSize > 0 && MemoryOk(m) && Delivery(delivery) && Neither(neither) && Churn(churn)
    requires delivery.neighbor == neither.neighbor == churn.neighbor
    ensures RiskAfter(s, m, delivery) <= RiskAfter(s, m, neither) <= RiskAfter(s, m, churn)
  {
    hide MemoryOk, Observed, Counters.Badness, RiskAfter;
    OutcomeParts(s, m, delivery);
    OutcomeParts(s, m, neither);
    OutcomeParts(s, m, churn);
    var c := Peer(m.peerScores, delivery.neighbor);
    BadnessMonotone(c.(delivered := c.delivered + 1.0), c);
    BadnessMonotone(c, c.(nodeDown := c.nodeDown + 1.0));
  }

  /** A delivery leaves at most half of what remained of the recent risk, and half of the badness. */
  lemma DeliveryLowersRisk(s: Settings, m: Memory, o: Observation)
    requires s.windowSize > 0 && MemoryOk(m) && Delivery(o) && s.reputationDecay >= 0.0
    ensures RiskAfter(s, m, o) <= 0.5 * (Faded(s, m, o.neighbor) + BadnessOf(m, o.neighbor))
  {
    hide MemoryOk, Observed, Counters.Badness, RiskAfter, Faded, NoBetter, Clamp, Counters.NonNegative;
    FadedNonNegative(s, m, o.neighbor);
    OutcomeParts(s, m, o);
    var c, x := Peer(m.peerScores, o.neighbor), Faded(s, m, o.neighbor);
    MoreDelivered(c);
    assert Clamp(x - 0.15) <= x by { ClampLowered(x); }
  }

  lemma ClampLowered(x: real)
    requires x >= 0.0
    ensures Clamp(x - 0.15) <= x
  {
  }

  lemma MoreDelivered(c: Counters)
    requires c.NonNegative()
    ensures var d := c.(delivered := c.delivered + 1.0); d.NonNegative() && d.Badness() <= c.Badness()
  {
    BadnessMonotone(c.(delivered := c.delivered + 1.0), c);
  }

  lemma FadedNonNegative(s: Settings, m: Memory, n: NodeId)
    requires MemoryOk(m) && s.reputationDecay >= 0.0
    ensures Faded(s, m, n) >= 0.0
  {
  }

  /** A failure leaves a risk of at least one half, and of at least the mean of one and the badness so far. */
  lemma FailureRaisesRisk(s: Settings, m: Memory, o: Observation)
    requires s.windowSize > 0 && MemoryOk(m) && Failure(o) && s.reputationDecay >= 0.0
    ensures RiskAfter(s, m, o) >= 0.5 * (1.0 + BadnessOf(m, o.neighbor)) >= 0.5
  {
    hide MemoryOk, Observed, Counters.Badness, RiskAfter, EvidenceAfter, Faded;
    FadedNonNegative(s, m, o.neighbor);
    OutcomeParts(s, m, o);
    var c := Peer(m.peerScores, o.neighbor);
    BadnessMonotone(c, Failed(c, o.reason));
    BadnessBounds(c);
  }

  // ---- churn against failure -------------------------------------------------------------

  /** Reasons that count on top of the drop itself. */
  predicate Aggravating(reason: Option<Reason>) {
    reason == Some(LinkLoss) || reason == Some(Loop) || reason == Some(TtlExpired)
  }

  /** By how much one more outage leaves a badness of b, over evidence of t, above that which one more plain drop
      leaves: a drop is also one more piece of evidence. */
  function Overshoot(b: real, t: real): real
    requires t > 0.0
  {
    Min(1.0, b + 0.05 / t) - (b * t + 1.0) / (t + 1.0)
  }

  /** One more outage never leaves more badness than one more failure with an aggravating reason, and leaves more than
      one more plain drop exactly in a narrow band below one. */
  lemma OutageAgainstDrop(c: Counters, reason: Option<Reason>)
    requires c.NonNegative()
    ensures var b, t := c.Badness(), c.delivered + c.drops + 8.0;
      var down, drop := c.(nodeDown := c.nodeDown + 1.0).Badness(), Failed(c, reason).Badness();
      && (down <= drop <==> Aggravating(reason) || b == 1.0 || b <= 0.95 - 0.05 / t)
      && (down > drop ==> down - drop == Overshoot(b, t))
  {
    var w, t := c.Weighted(), c.delivered + c.drops + 8.0;
    var down, drop := c.(nodeDown := c.nodeDown + 1.0), Failed(c, reason);
    assert down.Weighted() == w + 0.05 && down.delivered + down.drops + 8.0 == t;
    assert drop.delivered + drop.drops + 8.0 == t + 1.0;
    if Aggravating(reason) {
      assert drop.Weighted() >= w + 1.25;
      AggravatedDrop(w, t, drop.Weighted());
    } else {
      assert drop.Weighted() == w + 1.0;
      PlainDrop(w, t);
    }
  }

  lemma AggravatedDrop(w: real, t: real, w': real)
    requires 0.0 <= w && t >= 8.0 && w' >= w + 1.25
    ensures Min(1.0, (w + 0.05) / t) <= Min(1.0, w' / (t + 1.0))
  {
    CappedFraction(w + 0.05, t, w', t + 1.0);
  }

  lemma PlainDrop(w: real, t: real)
    requires 0.0 <= w && t >= 8.0
    ensures var b, down, drop := Min(1.0, w / t), Min(1.0, (w + 0.05) / t), Min(1.0, (w + 1.0) / (t + 1.0));
      && (down <= drop <==> b == 1.0 || b <= 0.95 - 0.05 / t)
      && (down > drop ==> down - drop == Overshoot(b, t))
  {
    var b := w / t;
    assert b * t == w && (w + 0.05) / t == b + 0.05 / t;
    if w >= t {
      CrossMultiply(1.0, 1.0, w, t);
      CrossMultiply(1.0, 1.0, w + 1.0, t + 1.0);
    } else {
      Below(w, t);
      Below(w + 1.0, t + 1.0);
      PlainOrder(w, t);
    }
  }

  /** Cross-multiplied: (w + 0.05)(t + 1) against (w + 1)t. */
  lemma PlainOrder(w: real, t: real)
    requires 0.0 <= w < t && t >= 8.0
    ensures Min(1.0, (w + 0.05) / t) <= (w + 1.0) / (t + 1.0) <==> w / t <= 0.95 - 0.05 / t
  {
    var limit := 0.95 * t - 0.05;
    assert limit / t == 0.95 - 0.05 / t;
    assert (w + 0.05) * (t + 1.0) == w * t + w + 0.05 * t + 0.05;
    assert (w + 1.0) * t == w * t + t;
    Below(w + 1.0, t + 1.0);
    if w <= limit {
      CrossMultiply(w + 0.05, t, w + 1.0, t + 1.0);
      CrossMultiply(w, t, limit, t);
    } else {
      StrictCross(w + 1.0, t + 1.0, w + 0.05, t);
      StrictFraction(limit, w, t);
    }
  }

  /** From the same memory churn leaves a peer less risky than any other failure: always if the reason is aggravating;
      else unless badness is in that band, and recent risk so high that the drop's signal is cut off by more. */
  lemma ChurnAgainstFailure(s: Settings, m: Memory, churn: Observation, failure: Observation)
    requires s.windowSize > 0 && MemoryOk(m) && Churn(churn) && Failure(failure) && churn.neighbor == failure.neighbor
    ensures var c := Peer(m.peerScores, churn.neighbor);
      var b, t, x := BadnessOf(m, churn.neighbor), c.delivered + c.drops + 8.0, Faded(s, m, churn.neighbor);
      t > 0.0 &&
      (RiskAfter(s, m, churn) <= RiskAfter(s, m, failure) <==>
        (|| Aggravating(failure.reason) || b == 1.0 || b <= 0.95 - 0.05 / t
         || Overshoot(b, t) <= Clamp(x + 1.0) - Clamp(x + 0.15)))
  {
    hide MemoryOk, Observed, Counters.Badness, RiskAfter, EvidenceAfter, Faded, Overshoot, Failed, Aggravating;
    OutcomeParts(s, m, churn);
    OutcomeParts(s, m, failure);
    OutageAgainstDrop(Peer(m.peerScores, churn.neighbor), failure.reason);
  }

  // ---- what is remembered ----------------------------------------------------------------

  /** The counters after an outcome: each fact counts once, and an outage is no drop. */
  predicate CountsOutcome(c: Counters, o: Observation, d: Counters) {
    && d.delivered == c.delivered + (if o.delivered then 1.0 else 0.0)
    && d.drops == c.drops + (if o.dropped && o.reason != Some(NodeDown) then 1.0 else 0.0)
    && d.nodeDown == c.nodeDown + (if o.reason == Some(NodeDown) then 1.0 else 0.0)
    && d.linkLosses == c.linkLosses + (if o.reason == Some(LinkLoss) then 1.0 else 0.0)
    && d.loops == c.loops + (if o.reason == Some(Loop) then 1.0 else 0.0)
    && d.ttlExpired == c.ttlExpired + (if o.reason == Some(TtlExpired) then 1.0 else 0.0)
    && d.sybilTouches == c.sybilTouches
  }

  /** An observation is remembered of the peer, and of the edge if its source is known; confirmed deliveries are
      remembered of edges only. Nobody else's account changes. */
  lemma ObservedCounts(s: Settings, m: Memory, o: Observation)
    requires s.windowSize > 0 && MemoryOk(m)
    ensures var m' := Observed(s, m, o);
      && CountsOutcome(Peer(m.peerScores, o.neighbor), o, Peer(m'.peerScores, o.neighbor))
      && (forall n :: n != o.neighbor ==> Peer(m'.peerScores, n) == Peer(m.peerScores, n)
                                          && Risk(m'.peerRisk, n) == Risk(m.peerRisk, n))
      && (forall e :: o.from.None? || e != (o.from.value, o.neighbor) ==>
            EdgeOf(m'.edgeScores, e) == EdgeOf(m.edgeScores, e))
      && (o.from.Some? ==>
            var before, after := EdgeOf(m.edgeScores, (o.from.value, o.neighbor)),
              EdgeOf(m'.edgeScores, (o.from.value, o.neighbor));
            && CountsOutcome(before.counts, o, after.counts)
            && after.receiptConfirmed == before.receiptConfirmed + if o.receiptConfirmed then 1.0 else 0.0)
  {
    hide MemoryOk, Blend, EwmaRisk, AdaptedBudget, Pushed, Counters.Plus, CountsOutcome;
    forall c: Counters ensures CountsOutcome(c, o, c.Plus(Gain(o))) { GainCounts(c, o); }
  }

  lemma GainCounts(c: Counters, o: Observation)
    ensures CountsOutcome(c, o, c.Plus(Gain(o)))
  {
  }

  /** The window holds the last outcomes. The budget moves only when the window is full and more of it than the
      threshold are drops; then it steps up, or to the maximum. */
  lemma BudgetFollowsWindow(s: Settings, m: Memory, o: Observation)
    requires s.windowSize > 0 && MemoryOk(m) && |m.recentDrops| <= s.windowSize
    ensures var m' := Observed(s, m, o);
      var w, size := m'.recentDrops, s.windowSize;
      && w == (if |m.recentDrops| < size then m.recentDrops else m.recentDrops[1..]) + [o.dropped]
      && m'.riskBudget == if |w| == size && multiset(w)[true] as real > s.dropThreshold * size as real
                          then Min(s.maxBudget, m.riskBudget + s.adaptStep) else m.riskBudget
  {
    hide MemoryOk, Blend, EwmaRisk, Counters.Plus, Pushed, AdaptedBudget;
    WindowPushed(m.recentDrops, o.dropped, s.windowSize);
    BudgetAdapted(s, m.riskBudget, Pushed(m.recentDrops, o.dropped, s.windowSize));
  }

  lemma WindowPushed(window: seq<bool>, flag: bool, size: nat)
    requires 0 < size && |window| <= size
    ensures Pushed(window, flag, size) == (if |window| < size then window else window[1..]) + [flag]
    ensures |Pushed(window, flag, size)| <= size
  {
  }

  lemma BudgetAdapted(s: Settings, budget: real, w: seq<bool>)
    requires s.windowSize > 0 && |w| <= s.windowSize
    ensures AdaptedBudget(s, budget, w) ==
      if |w| == s.windowSize && multiset(w)[true] as real > s.dropThreshold * s.windowSize as real
      then Min(s.maxBudget, budget + s.adaptStep) else budget
  {
    hide CountTrue;
    TrueCounted(w);
    OverThreshold(CountTrue(w) as real, s.dropThreshold, s.windowSize as real);
  }

  lemma {:induction false} TrueCounted(w: seq<bool>)
    ensures CountTrue(w) == multiset(w)[true]
  {
    if |w| > 0 {
      TrueCounted(w[..|w| - 1]);
      assert w == w[..|w| - 1] + [w[|w| - 1]];
    }
  }

  lemma OverThreshold(n: real, threshold: real, size: real)
    requires size > 0.0
    ensures n / size > threshold <==> n > threshold * size
  {
    if n > threshold * size {
      StrictFraction(threshold * size, n, size);
    } else {
      CrossMultiply(n, size, threshold * size, size);
    }
  }

  /** Without evidence an edge succeeds half the time; confirmations raise that and drops lower it, never to 0 or 1. */
  lemma ReceiptsRaiseSuccess(a: EdgeScore, b: EdgeScore)
    requires a.NonNegative() && b.NonNegative()
    requires a.receiptConfirmed <= b.receiptConfirmed && b.counts.drops <= a.counts.drops
    ensures 0.0 < a.ReceiptSuccessRate() <= b.ReceiptSuccessRate() < 1.0
    ensures a.receiptConfirmed < b.receiptConfirmed || b.counts.drops < a.counts.drops ==>
      a.ReceiptSuccessRate() < b.ReceiptSuccessRate()
    ensures EdgeScore(ZERO, 0.0).ReceiptSuccessRate() == 0.5
  {
    BetterOdds(a.receiptConfirmed + 1.0, a.counts.drops + 1.0, b.receiptConfirmed + 1.0, b.counts.drops + 1.0);
  }

  lemma BetterOdds(x: real, d: real, y: real, e: real)
    requires 0.0 < x <= y && 0.0 < e <= d
    ensures 0.0 < x / (x + d) <= y / (y + e) < 1.0
    ensures x < y || e < d ==> x / (x + d) < y / (y + e)
  {
    Below(y, y + e);
    SharePositive(x, x + d);
    if x < y || e < d {
      CrossedOdds(x, d, y, e);
      StrictCross(x, x + d, y, y + e);
    }
  }

  lemma CrossedOdds(x: real, d: real, y: real, e: real)
    requires 0.0 < x <= y && 0.0 < e <= d && (x < y || e < d)
    ensures x * (y + e) < y * (x + d)
  {
    LargerProduct(x, y, e, d);
    assert x * (y + e) == x * y + x * e && y * (x + d) == x * y + y * d;
  }

  lemma LargerProduct(x: real, y: real, e: real, d: real)
    requires 0.0 < x <= y && 0.0 < e <= d
    ensures x * e <= y * d && (x < y || e < d ==> x * e < y * d)
  {
    assert y * d - x * e == (y - x) * d + x * (d - e);
  }

  /** Ageing evidence, as every restart does, takes badness away and never adds any. */
  lemma AgeingForgives(c: Counters, k: real)
    requires c.NonNegative() && 0.0 <= k <= 1.0
    ensures c.Times(k).NonNegative() && c.Times(k).Badness() <= c.Badness()
    ensures k == 0.0 ==> c.Times(k) == ZERO
    ensures k == 1.0 ==> c.Times(k) == c
  {
    hide Counters.Times, Counters.Weighted, By;
    TimesNonNegative(c, k);
    TimesWeighted(c, k);
    WeightedNonNegative(c);
    ShrunkFraction(c.Weighted(), c.delivered + c.drops, k);
  }

  lemma WeightedNonNegative(c: Counters)
    requires c.NonNegative()
    ensures c.Weighted() >= 0.0
  {
  }

  lemma TimesWeighted(c: Counters, k: real)
    ensures var d := c.Times(k);
      d.Weighted() == By(c.Weighted(), k) && d.delivered + d.drops == By(c.delivered + c.drops, k)
    ensures k == 0.0 ==> c.Times(k) == ZERO
    ensures k == 1.0 ==> c.Times(k) == c
  {
  }

  lemma ShrunkFraction(w: real, t: real, k: real)
    requires w >= 0.0 && t >= 0.0 && 0.0 <= k <= 1.0
    ensures By(t, k) >= 0.0 && Min(1.0, By(w, k) / (By(t, k) + 8.0)) <= Min(1.0, w / (t + 8.0))
  {
    var x, y := By(w, k), By(t, k);
    ProductNonNegative(t, k);
    ProductNonNegative(w, 1.0 - k);
    assert x * t == w * y;
    assert x * (t + 8.0) <= w * (y + 8.0);
    CrossMultiply(x, y + 8.0, w, t + 8.0);
  }

  /** Every counter is what the factor leaves of it. */
  predicate Fades(c: Counters, k: real, d: Counters) {
    && d.delivered == c.delivered * k && d.drops == c.drops * k && d.nodeDown == c.nodeDown * k
    && d.linkLosses == c.linkLosses * k && d.loops == c.loops * k && d.ttlExpired == c.ttlExpired * k
    && d.sybilTouches == c.sybilTouches * k
  }

  lemma TimesFades(c: Counters, k: real)
    ensures Fades(c, k, c.Times(k))
  {
  }

  lemma ConfirmedFades(x: EdgeScore, k: real)
    ensures x.Decayed(k).receiptConfirmed == x.receiptConfirmed * k
  {
  }

  /** After a restart every peer and edge is remembered with faded evidence, a peer is as risky as that evidence is bad,
      and thereby no riskier than its evidence was bad before; the window starts anew. */
  lemma RestartFades(s: Settings, m: Memory)
    requires MemoryOk(m) && 0.0 <= s.stateDecay <= 1.0
    ensures var m' := Restarted(s, m);
      && m'.riskBudget == m.riskBudget && m'.recentDrops == [] && MemoryOk(m')
      && m'.peerScores.Keys == m'.peerRisk.Keys == m.peerScores.Keys && m'.edgeScores.Keys == m.edgeScores.Keys
      && (forall n :: n in m.peerScores ==>
            && Fades(m.peerScores[n], s.stateDecay, m'.peerScores[n])
            && m'.peerRisk[n] == BadnessOf(m', n) <= BadnessOf(m, n))
      && (forall e :: e in m.edgeScores ==>
            && Fades(m.edgeScores[e].counts, s.stateDecay, m'.edgeScores[e].counts)
            && m'.edgeScores[e].receiptConfirmed == m.edgeScores[e].receiptConfirmed * s.stateDecay)
  {
    RestartedOk(s, m);
    hide MemoryOk, Fades, Counters.Times, Counters.Badness;
    var m' := Restarted(s, m);
    forall n | n in m.peerScores
      ensures Fades(m.peerScores[n], s.stateDecay, m'.peerScores[n])
      ensures m'.peerRisk[n] == BadnessOf(m', n) <= BadnessOf(m, n)
    {
      PeerOk(m, n);
      TimesFades(m.peerScores[n], s.stateDecay);
      AgeingForgives(m.peerScores[n], s.stateDecay);
    }
    forall e | e in m.edgeScores
      ensures Fades(m.edgeScores[e].counts, s.stateDecay, m'.edgeScores[e].counts)
      ensures m'.edgeScores[e].receiptConfirmed == m.edgeScores[e].receiptConfirmed * s.stateDecay
    {
      TimesFades(m.edgeScores[e].counts, s.stateDecay);
      ConfirmedFades(m.edgeScores[e], s.stateDecay);
    }
  }

  // ---- scores ----------------------------------------------------------------------------

  predicate Penalizes(k: Weights) {
    k.reputationPenalty >= 0.0 && k.learnedPenalty >= 0.0 && k.edgePenalty >= 0.0
  }

  /** A hop that is at least as risky, bad and unconfirmed as another scores no better over the same base, and worse
      if it is riskier, or worse of itself or over its edge, and that counts. */
  lemma RiskNeverScores(k: Weights, base: real, risk: real, badness: real, edgeBadness: real, margin: real,
      risk': real, badness': real, edgeBadness': real, margin': real)
    requires Penalizes(k) && risk <= risk' && badness <= badness' && edgeBadness <= edgeBadness' && margin' <= margin
    ensures Penalized(k, base, risk', badness', edgeBadness', margin')
         <= Penalized(k, base, risk, badness, edgeBadness, margin)
    ensures (|| (risk < risk' && k.reputationPenalty > 0.0)
             || (badness < badness' && k.learnedPenalty > 0.0)
             || (edgeBadness < edgeBadness' && k.edgePenalty > 0.0)
             || (margin' < margin && k.receiptWeight > 0.0)) ==>
      Penalized(k, base, risk', badness', edgeBadness', margin')
      < Penalized(k, base, risk, badness, edgeBadness, margin)
  {
    hide By;
    Heavier(risk, risk', k.reputationPenalty);
    Heavier(badness, badness', k.learnedPenalty);
    Heavier(edgeBadness, edgeBadness', k.edgePenalty);
    if k.receiptWeight > 0.0 {
      Heavier(margin', margin, k.receiptWeight);
    }
  }

  lemma Heavier(x: real, y: real, k: real)
    requires k >= 0.0 && x <= y
    ensures By(x, k) <= By(y, k) && (k > 0.0 && x < y ==> By(x, k) < By(y, k))
  {
    Distributes(x, y - x, y, k);
    ProductZero(y - x, k);
  }

  lemma DeliveryBeatsFailure(s: Settings, m: Memory, delivery: Observation, failure: Observation)
    requires s.windowSize > 0 && MemoryOk(m) && Delivery(delivery) && Failure(failure)
    requires delivery.neighbor == failure.neighbor
    ensures RiskAfter(s, m, delivery) <= RiskAfter(s, m, failure)
    ensures EvidenceAfter(s, m, delivery).Badness() <= EvidenceAfter(s, m, failure).Badness()
  {
    hide MemoryOk, Observed, Counters.Badness, RiskAfter, EvidenceAfter, Faded;
    OutcomeParts(s, m, delivery);
    OutcomeParts(s, m, failure);
    BadnessMonotone(EvidenceAfter(s, m, delivery), EvidenceAfter(s, m, failure));
  }

  /** From the same memory a hop scores at least as well after a delivery over it as after a failure. */
  lemma DeliveryScoresBetter(k: Weights, s: Settings, m: Memory, base: NodeId -> Option<real>, from: NodeId,
      delivery: Observation, failure: Observation)
    requires s.windowSize > 0 && MemoryOk(m) && Delivery(delivery) && Failure(failure) && Penalizes(k)
    requires delivery.neighbor == failure.neighbor && delivery.from == failure.from == Some(from)
    requires !failure.receiptConfirmed
    requires base(delivery.neighbor).Some?
    ensures MemoryOk(Observed(s, m, delivery)) && MemoryOk(Observed(s, m, failure))
    ensures LearnedScore(k, Observed(s, m, failure), base, from, failure.neighbor).value
         <= LearnedScore(k, Observed(s, m, delivery), base, from, delivery.neighbor).value
  {
    hide MemoryOk, Observed, Counters.Badness, CountsOutcome, Penalized, EdgeScore.ReceiptSuccessRate;
    var n, e := delivery.neighbor, (from, delivery.neighbor);
    ObservedOk(s, m, delivery);
    ObservedOk(s, m, failure);
    DeliveryBeatsFailure(s, m, delivery, failure);
    ObservedCounts(s, m, delivery);
    ObservedCounts(s, m, failure);
    var a, b := EdgeOf(Observed(s, m, delivery).edgeScores, e), EdgeOf(Observed(s, m, failure).edgeScores, e);
    EdgeNonNegative(Observed(s, m, delivery), e);
    EdgeNonNegative(Observed(s, m, failure), e);
    DeliveredAgainstFailed(EdgeOf(m.edgeScores, e).counts, delivery, failure, a.counts, b.counts);
    BadnessMonotone(a.counts, b.counts);
    ReceiptsRaiseSuccess(b, a);
    var c, d := EvidenceAfter(s, m, delivery), EvidenceAfter(s, m, failure);
    RiskNeverScores(k, base(n).value,
      RiskAfter(s, m, delivery), c.Badness(), a.counts.Badness(), a.ReceiptSuccessRate() - 0.5,
      RiskAfter(s, m, failure), d.Badness(), b.counts.Badness(), b.ReceiptSuccessRate() - 0.5);
  }

  lemma DeliveredAgainstFailed(c: Counters, delivery: Observation, failure: Observation, a: Counters, b: Counters)
    requires Delivery(delivery) && Failure(failure)
    requires CountsOutcome(c, delivery, a) && CountsOutcome(c, failure, b)
    ensures NoBetter(a, b)
  {
  }

  // ---- trusted paths ---------------------------------------------------------------------

  /** A path over one or two relays, each of them live, unvisited and within the risk limit, each of its edges known and
      within the limits on receipts and badness. */
  predicate Vetted(h: Thresholds, m: Memory, adj: Adjacency, off: set<NodeId>, p: Packet, path: seq<NodeId>)
    requires MemoryOk(m)
  {
    && 3 <= |path| <= 4 && path[0] == p.node && path[|path| - 1] == p.dst && (|path| == 4 ==> path[2] != p.node)
    && (forall i :: 0 < i < |path| - 1 ==>
          path[i] !in p.visited && path[i] !in off && (path[i] in m.peerRisk ==> m.peerRisk[path[i]] <= h.nodeRisk)
          && (path[i] !in m.peerRisk ==> 0.0 <= h.nodeRisk))
    && forall i :: 0 <= i < |path| - 1 ==>
         && path[i + 1] in Neighbors(adj, path[i]) && (path[i], path[i + 1]) in m.edgeScores
         && m.edgeScores[(path[i], path[i + 1])].ReceiptSuccessRate() >= h.receiptSuccess
         && m.edgeScores[(path[i], path[i + 1])].counts.Badness() <= h.edgeBadness
  }

  /** The trusted paths are the vetted ones. */
  lemma TrustedIsVetted(h: Thresholds, m: Memory, adj: Adjacency, off: set<NodeId>, p: Packet, path: seq<NodeId>)
    requires MemoryOk(m)
    ensures TrustedPath(h, m, adj, off, p, path) <==> Vetted(h, m, adj, off, p, path)
  {
    hide MemoryOk, Counters.Badness, EdgeScore.ReceiptSuccessRate;
    if Vetted(h, m, adj, off, p, path) {
      if |path| == 3 {
        assert path == [p.node, path[1], p.dst] && TrustedTwo(h, m, adj, off, p, path[1]);
      } else {
        assert path == [p.node, path[1], path[2], p.dst] && TrustedThree(h, m, adj, off, p, path[1], path[2]);
      }
    }
  }

  // ---- examples --------------------------------------------------------------------------

  /** A new solver with the default decay: one link loss leaves a peer at 0.575, one delivery at 0. */
  lemma FirstOutcomes(s: Settings, budget: real, from: Option<NodeId>)
    requires SettingsOk(s) && s.reputationDecay == 0.92
    ensures RiskAfter(s, Newborn(budget), Observation(1, false, true, Some(LinkLoss), from, false)) == 0.575
    ensures RiskAfter(s, Newborn(budget), Observation(1, true, false, None, from, false)) == 0.0
  {
    hide Observed, RiskAfter, EvidenceAfter, Counters.Badness;
    var m := Newborn(budget);
    FirstBadness();
    OutcomeParts(s, m, Observation(1, false, true, Some(LinkLoss), from, false));
    OutcomeParts(s, m, Observation(1, true, false, None, from, false));
  }

  lemma FirstBadness()
    ensures Failed(ZERO, Some(LinkLoss)).Badness() == 0.15 && ZERO.(delivered := 1.0).Badness() == 0.0
  {
  }

  /** A peer at full risk with 16 drops, 15 for loops and one for a link loss: one more outage leaves it riskier than
      one more drop for want of a route. */
  lemma ChurnOvertakes(s: Settings, churn: Observation, drop: Observation)
    requires SettingsOk(s) && s.reputationDecay == 0.92 && Churn(churn) && Failure(drop) && drop.reason == Some(NoRoute)
    requires churn.neighbor == drop.neighbor == 1
    ensures var c := Counters(0.0, 16.0, 0.0, 1.0, 15.0, 0.0, 0.0);
      var m := Memory(0.3, [], map[1 := 1.0], map[1 := c], map[]);
      MemoryOk(m) && RiskAfter(s, m, churn) > RiskAfter(s, m, drop)
  {
    var c := Counters(0.0, 16.0, 0.0, 1.0, 15.0, 0.0, 0.0);
    var m := Memory(0.3, [], map[1 := 1.0], map[1 := c], map[]);
    assert c.Weighted() == 23.85 && c.Badness() == 23.85 / 24.0 == 0.99375;
    hide Observed, RiskAfter, EvidenceAfter, Failed, Aggravating, Counters.Badness;
    ChurnAgainstFailure(s, m, churn, drop);
  }
}
