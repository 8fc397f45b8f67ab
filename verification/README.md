# Aegis Router, verified model

A Dafny model of the routing, trust and delivery logic of Aegis Router, with proofs that hold for
every graph, every solver, every draw of the random module and every run.

| module | models |
|---|---|
| `Network`, `HopDistance`, `PathSearch`, `Landmarks`, `Graph`, `Routes`, `RoutingLaws` | `graph.py`, the route loop of `sim.py`, the progress hint of `agent.py`, and what answers and totals come to |
| `PowerIteration`, `SparseVectors`, `Evidence`, `EigenTrust`, `RepuLink`, `RepuLaws` | the trust ledgers of `solvers.py` and `repulink.py`, over exact reals, and which way deliveries, drops and endorsements move them |
| `Packets`, `Links` | `packet.py` with ideal signatures; retransmission on a lossy link |
| `SimState`, `Arrival`, `SimRuns`, `Simulator`, `SimExamples` | `event_sim.py`: state and invariants, one arrival, runs as sequences of exact steps, the class and its event loop, and concrete runs |
| `DaemonState`, `DaemonSafety`, `DaemonHonest`, `DaemonLaws`, `DaemonFrames`, `Daemon`, `Cluster`, `ClusterRuns` | `daemon.py`: the cluster as a state machine, all runs, honest runs, what steps come to in messages and credits, what a step leaves alone, the node class, and the cluster of nodes over shared counters |
| `StateKeys`, `Reputation`, `Selection`, `EdgeSolver`, `LearningLaws` | what the solvers of `solvers.py` learn, how they choose, and which outcomes raise and lower risks and scores |
| `Sequences`, `Reals` | lists without repetition; arithmetic on reals |

How it is built:

* The classes of the program (`P2PGraph`, `GlobalTrustLedger`, `RepuLinkLedger`,
  `EventDrivenSimulator`, `ClusterStats`, `LocalNodeProtocol`, `EdgeLearningSolver`, and the two trust
  solvers) are Dafny classes whose methods update fields; `LocalCluster` stands for the locals of
  `run_local_cluster`. Each method is proved to do what a pure
  step function says, and the theorems are proved about those functions and about all their
  sequences. What a step comes to is also stated without its function, field by field: in the methods'
  own contracts, and in the `...Laws` modules and `Evidence`.
* Random numbers, clock readings and solver answers come from oracle functions, so every theorem
  covers every seed and every stateful solver. A solver's answer may depend on everything that
  happened before, because it may depend on the number of the decision.
* The daemon's network is the set of all messages ever sent. Any of them can be delivered at any
  time, any number of times, or never; an attacker can also inject altered or replayed messages, with
  signatures that were issued, or with those of any given set of corrupt nodes, which sign as themselves
  whatever they like.
* Dictionary and heap order is left open wherever the program's answer does not depend on it, and the
  answers are proved unique.

Where the code and its own description differ, the model follows the code, with an input that shows
the difference and the exact condition under which there is none:

* `EdgeLearningSolver` describes its peer score as the coarse form of its edge scores. After any life
  that is so if and only if no observation without `from_node` that counted anything has lasted; it
  lasts unless the learned state decays by zero and a restart follows (`Reputation.LedgersAgree`). One
  sourceless delivery parts the two (`Reputation.SourcelessExample`).
* `AdaptiveRiskSolver` describes its budget as relaxing after drops. Over a life the budget never falls
  if and only if it starts at or below `max_budget` with a non-negative `adapt_step`, or is never
  relaxed (`Reputation.BudgetNeverFalls`). Ten drops lower 0.8 to 0.55 (`Reputation.BudgetExample`).
* The statistics of a run add up if and only if no earlier run of the same simulator left a packet in
  flight (`Simulator.EventDrivenSimulator.Run`). Two runs of duration 0 over one link of latency 1 do not
  (`SimExamples.TwoRuns`).
* `node_down` is described as a mild signal next to a real drop. It leaves a peer no riskier than a drop
  that also counts as a loss, a loop or an expiry. Against any other drop that is so if and only if the
  peer's badness is one, or at most 0.95 - 0.05 / evidence, or its recent risk leaves the drop enough room
  to make up for it (`LearningLaws.ChurnAgainstFailure`). At full recent risk and a badness of 0.99375 it is
  not (`LearningLaws.ChurnOvertakes`).
* The landmark hint for a neighbour fails, by taking the maximum of nothing, exactly when vectors were
  computed for no landmarks at all, unless packet and neighbour are both at the destination
  (`Landmarks.EstimateIsGap`, `Landmarks.ProgressBounded`). It does on two linked nodes with empty vectors
  (`Landmarks.NoLandmarksExample`).

## Model

| member | source | states |
|---|---|---|
| HopDistance.BfsHops | aegis_router/graph.py:116-125 | breadth-first search labels exactly the nodes reachable from the source, each with its least hop count |
| HopDistance.LabelsAreLeast | aegis_router/graph.py:116-125 | once the queue is empty no label exceeds the length of any walk |
| HopDistance.RelayBound | aegis_router/event_sim.py:206-210 | a walk that leaves each node once and never leaves dst has fewer hops than there are nodes |
| PathSearch.HeapPop | aegis_router/graph.py:79-80 | the popped entry is the least by cost, node and hop, and the rest is unchanged |
| PathSearch.LeastEntryBounds | aegis_router/graph.py:78-93 | while the heap covers the frontier, the least entry bounds every path to an unsettled node from below |
| PathSearch.StaleEntry | aegis_router/graph.py:81-82 | skipping a duplicate entry of a settled node loses nothing |
| PathSearch.SettleEntry | aegis_router/graph.py:79-92 | the first entry popped for a node describes a best path to it |
| PathSearch.SearchFirstHop | aegis_router/graph.py:147-165 | returns None exactly when no live path exists, and else the first hop of the path that is least by cost, then first hop |
| PathSearch.BestIsNearest | aegis_router/graph.py:67-93 | the first hop of a best path by hop count is the smallest live neighbour exactly one hop nearer to dst |
| PathSearch.ShortestAnswerUnique | aegis_router/graph.py:67-93 | the answer does not depend on the order of heap ties and dictionaries |
| Graph.P2PGraph.constructor | aegis_router/graph.py:26-35 | a new graph is empty |
| Graph.P2PGraph.AddNode | aegis_router/graph.py:37-40 | adds the node if it is new, marks it when it is a Sybil, keeps all links |
| Graph.P2PGraph.AddEdge | aegis_router/graph.py:46-50 | records the same metrics at both ends, adds missing ends, and leaves every other link alone |
| Graph.P2PGraph.ShortestPathNextHop | aegis_router/graph.py:67-93 | None exactly when dst cannot be reached over live nodes, else the smallest live neighbour one hop nearer |
| Graph.P2PGraph.QualityPathNextHop | aegis_router/graph.py:147-165 | the first hop of a path of least total max(0.001, cost) over live nodes, None exactly when there is none |
| RoutingLaws.QualityFollowsMetrics | aegis_router/graph.py:21-22 | a quality weight is at least 0.001; a link with lower latency or loss, or higher stability or bandwidth, never weighs more, and weighs less above that floor |
| RoutingLaws.BestIsCheapest | aegis_router/graph.py:147-165 | no path is cheaper than the best one, and none with a smaller first hop is as cheap |
| RoutingLaws.PathCostParts | aegis_router/graph.py:147-165 | the cost of a path is the sum over its parts, down to the weight of each link |
| RoutingLaws.FirstLinkAffordable | aegis_router/graph.py:147-165 | the first link of the answer never weighs more than any whole path, so a cheaper detour replaces a link |
| Graph.P2PGraph.ComputeLandmarks | aegis_router/graph.py:95-114 | stores for every node its hop counts to the landmarks, with the sentinel for unreachable ones |
| Graph.RingConnects | aegis_router/graph.py:200-202 | a graph that contains the ring is connected |
| Graph.GenerateRandomGraph | aegis_router/graph.py:168-216 | nodes 0 to n-1, undirected, connected, without self-loops from two nodes on, link target met or attempts used up; raises exactly for one node and degree at least two |
| Network.WithEdgeUndirected | aegis_router/graph.py:46-50 | adding an edge keeps all links symmetric |
| Landmarks.LandmarkVectors | aegis_router/graph.py:102-114 | builds one vector per node, one entry per landmark |
| Landmarks.Admissible | aegis_router/graph.py:127-145 | the landmark estimate never exceeds the true hop distance |
| Landmarks.GapSymmetric | aegis_router/graph.py:127-145 | the estimate is symmetric and zero between equal vectors |
| Landmarks.GapTriangle | aegis_router/graph.py:127-145 | the estimate satisfies the triangle inequality |
| Landmarks.ExactAtLandmark | aegis_router/graph.py:95-145 | the estimate is exact when one end is a landmark and both ends are connected |
| Landmarks.Consistent | aegis_router/graph.py:127-145 | the estimate changes by at most one across a link |
| Landmarks.EstimateIsGap | aegis_router/graph.py:137-145 | between nodes with vectors the estimate is the largest difference of their entries, and fails exactly for distinct nodes without landmarks |
| Landmarks.ProgressBounded | aegis_router/agent.py:187-202 | the landmark progress of a hop to a neighbour fails (None) exactly when there are no landmarks to compare by, unless the packet and the neighbour are both at dst, and else lies in [-1, 1], also with unreachable landmarks |
| RoutingLaws.ProgressMeansNearer | aegis_router/agent.py:187-202 | a hop makes progress exactly if it comes nearer to dst, by landmarks or else around the ring, and loses it exactly if it moves away |
| RoutingLaws.RingShorterWay | aegis_router/agent.py:187-202 | the ring distance is symmetric, zero exactly for a node itself, and at most half the ring |
| Landmarks.NoLandmarksExample | aegis_router/graph.py:95-145 | on two linked nodes with vectors for no landmarks the estimate is the maximum of nothing |
| Routes.NoRepeat | aegis_router/sim.py:94-95 | a route that comes one hop nearer each step visits no node twice |
| Routes.FreshNode | aegis_router/sim.py:94-95 | the `seen` branch is never taken |
| Routes.RouteShortestPath | aegis_router/sim.py:85-105 | delivers in exactly dist hops when dist is below max_hops, runs to max_hops when it is not, stops at the source when there is no way, with the latency, risk and Sybil contact of the route walked |
| RoutingLaws.LatencyParts | aegis_router/sim.py:100-102 | latencies add up along a route, down to each link |
| RoutingLaws.SurvivalParts | aegis_router/sim.py:100-102 | the chances of the parts of a route multiply, down to one less the loss of each link |
| RoutingLaws.SurvivalFalls | aegis_router/sim.py:100-102 | a route survives with a probability, and with every link with no larger one |
| PowerIteration.StepKeepsMass | aegis_router/solvers.py:144-157 | a step keeps a distribution and leaves every node at least its share of the restart |
| PowerIteration.Contraction | aegis_router/solvers.py:144-152 | a step contracts L1 distances by 1 - damping |
| PowerIteration.IterateKeepsMass | aegis_router/solvers.py:138-163 | every iterate is a distribution with at least damping times the restart at every node |
| PowerIteration.ResidualBound | aegis_router/solvers.py:144-163 | the k-th residual is at most 2(1-damping)^k |
| PowerIteration.FixedPointDistance | aegis_router/solvers.py:144-163 | damping times the distance to a fixed point is at most (1-damping) times the last change |
| PowerIteration.FixedPointUnique | aegis_router/solvers.py:138-152 | with positive damping there is at most one fixed point |
| PowerIteration.OutcomeGuarantees | aegis_router/solvers.py:138-166 | the result of a whole iteration is a distribution with at least the damped restart everywhere, its last change is at most 2(1-damping)^k, and bounds the distance to every fixed point |
| PowerIteration.ConvergedBy | aegis_router/solvers.py:138-166 | when 2(1-damping)^k is within the tolerance, the iteration has converged by iteration k |
| PowerIteration.Containment | aegis_router/solvers.py:138-157 | a set without restart mass that gets at most a fraction e of each outside row never holds more than (1-damping)e/damping |
| EigenTrust.LocalTrustStochastic | aegis_router/solvers.py:110-136 | every row of local trust is a distribution, also where there is no evidence |
| EigenTrust.TrustFollowsEvidence | aegis_router/solvers.py:110-136 | a node trusts exactly the peers that delivered more for it than they dropped, in the ratio of deliveries less drops; without any such peer its row is the pretrust |
| EigenTrust.BetterTrusted | aegis_router/solvers.py:110-136 | more deliveries or fewer drops of one peer never lower the trust in it, and never raise the trust in another |
| EigenTrust.OneMoreOutcome | aegis_router/solvers.py:88-136 | one more delivery by a peer never lowers the trust in it, and one more drop never raises it, whatever the evidence was |
| EigenTrust.SybilContainment | aegis_router/solvers.py:110-157 | after any number of iterations the trust of nodes without pretrust, to which every outsider gives at most the fraction e of its deliveries over drops, is at most (1-damping)e/damping |
| EigenTrust.TrustContainment | aegis_router/solvers.py:138-166 | the trust vector a recompute stores gives such a set at most (1-damping)e/damping |
| EigenTrust.DefaultRate | aegis_router/solvers.py:40-42 | with damping 0.15 the bound is below the default tolerance at iteration 146 |
| EigenTrust.DefaultsConverge | aegis_router/solvers.py:40-42 | with the defaults every recompute has converged by iteration 146 |
| EigenTrust.Propagate | aegis_router/solvers.py:145-152 | the double loop over sparse rows computes the damped step |
| EigenTrust.PowerIterate | aegis_router/solvers.py:144-163 | the loop returns the first iterate within the tolerance, or the last one, and never divides by zero |
| EigenTrust.OneRow | aegis_router/solvers.py:117-135 | a row has entries for exactly the peers that delivered more than they dropped, in the ratio of the difference and with total one; it is the pretrust when there is no such peer |
| EigenTrust.GlobalTrustLedger.constructor | aegis_router/solvers.py:55-76 | pretrust is one over their number for the anchors, or for all nodes when there are none, and zero elsewhere |
| EigenTrust.GlobalTrustLedger.Observe | aegis_router/solvers.py:88-108 | counts one delivery or one drop of that edge between known nodes, and of no other; ignores node_down |
| EigenTrust.GlobalTrustLedger.LocalTrustRows | aegis_router/solvers.py:110-136 | the sparse rows are those of the trust matrix, each with entries for exactly the peers that delivered more than they dropped, in the ratio of the difference, or the pretrust |
| EigenTrust.GlobalTrustLedger.Recompute | aegis_router/solvers.py:138-166 | trust, iterations, residual and converged are those of the specified iteration, with the residual and fixed-point bounds for the stored vector, and the normalization error is never raised |
| RepuLink.MixedStochastic | aegis_router/repulink.py:341-353 | the two-layer map is stochastic even when nodes have no row in one or both layers |
| RepuLaws.MixedEnds | aegis_router/repulink.py:346-353 | with interaction weight one only interactions count, with zero only endorsements |
| RepuLaws.InteractionLayer | aegis_router/repulink.py:221-243 | a node passes reputation to exactly the peers that delivered more for it than they dropped, in the ratio of the difference, and keeps it where there is none |
| RepuLaws.OneMoreInteraction | aegis_router/repulink.py:221-243 | for any layer weights, one more delivery by a peer never lowers what it is passed, and one more drop never raises it |
| RepuLink.ProjectIsDistribution | aegis_router/repulink.py:191-201 | the projection of any vector is a distribution |
| RepuLink.ProjectIdentity | aegis_router/repulink.py:191-201 | the projection changes no distribution, so it is the identity inside the loop |
| RepuLaws.ProjectTakesPositive | aegis_router/repulink.py:191-201 | the projection keeps exactly the positive entries, in their ratios, and falls back exactly when there is none |
| RepuLink.BackwardMonotone | aegis_router/repulink.py:286-310 | a larger signal propagates at least as far and gives every node at least as much, early exit included |
| RepuLink.BackwardBounded | aegis_router/repulink.py:286-310 | no node gets more than discount/(1-discount) times the largest signal |
| RepuLink.BackwardReach | aegis_router/repulink.py:286-310 | after k hops a node holds something exactly when the discount is positive and an endorsement chain of 1 to k hops leads from it to evidence |
| RepuLaws.AccountReach | aegis_router/repulink.py:274-310 | penalties and rewards go to exactly the nodes from which a chain of endorsements, no longer than the hops taken, leads to a node of which somebody has counted a drop or a delivery; direct endorsers are always reached |
| RepuLink.Backward | aegis_router/repulink.py:286-310 | the loop computes the specified discounted sum and stops where the early exit says |
| RepuLink.TwoLayerPass | aegis_router/repulink.py:341-353 | the double loop over both layers computes the inflow of the two-layer matrix |
| RepuLink.Converge | aegis_router/repulink.py:338-367 | the loop returns the specified iterate, residual and verdict |
| RepuLink.SparseRows | aegis_router/repulink.py:203-243 | the rows of a layer are its positive weights over their total, empty where there are none |
| RepuLink.RepuLinkLedger.Rows | aegis_router/repulink.py:203-243 | endorsement rows are in the ratio of the confidences of exactly the edges given, interaction rows in that of deliveries less drops over exactly the peers with more deliveries |
| RepuLink.RepuLinkLedger.Seed | aegis_router/repulink.py:323-337 | the restart vector is the projection of cold start, evidence and accounts |
| RepuLink.RepuLinkLedger.constructor | aegis_router/repulink.py:81-110 | a new ledger has no evidence, no accounts, and the cold start as reputation |
| RepuLink.RepuLinkLedger.Supply | aegis_router/repulink.py:106-108 | the supplied endorsements are added one by one: refused exactly if one of them is unknown, reflexive, out of range or a repetition, else all are there and nothing else |
| RepuLink.NewLedger | aegis_router/repulink.py:81-110 | building a ledger with endorsements fails exactly then, and else starts from their cold start |
| RepuLink.RepuLinkLedger.Settle | aegis_router/repulink.py:339-369 | the iteration from a seed becomes the reputation, with its residual and verdict |
| RepuLink.RepuLinkLedger.AddEndorsement | aegis_router/repulink.py:116-132 | accepts an endorsement exactly when both nodes are known and distinct, the confidence is in (0, 1] and the edge is new |
| RepuLink.RepuLinkLedger.Observe | aegis_router/repulink.py:254-272 | counts one delivery or one drop of that edge between known nodes, and of no other; ignores node_down |
| RepuLink.RepuLinkLedger.ColdStart | aegis_router/repulink.py:245-252 | the cold start is the projected endorsement inflow of the uniform vector |
| RepuLaws.ColdStartEndorsed | aegis_router/repulink.py:245-252 | the cold start is positive for exactly the endorsed nodes, and the same for all when nobody is endorsed |
| RepuLaws.ReceivedCounts | aegis_router/repulink.py:278-280 | one more outcome raises the evidence about its target by one, whoever saw it, and about nobody else |
| RepuLink.RepuLinkLedger.Account | aegis_router/repulink.py:274-310 | penalties and rewards are the backward sums of the saturated evidence, and bounded |
| RepuLink.RepuLinkLedger.Recompute | aegis_router/repulink.py:319-369 | reputation is the specified iterate from the specified seed, with the accounts that go into it and the residual and fixed-point bounds for the stored vector |
| RepuLaws.BetterEvidence | aegis_router/repulink.py:319-337 | between two ledgers with the same endorsements, more deliveries and fewer drops lower nobody's reputation before projection, with rewards, penalties and the early exit included, and raise that of the nodes they are about and of all whose reward grows or penalty falls |
| Links.Transmit | aegis_router/event_sim.py:226-232 | tries until a draw reaches the loss probability or the tries are used up |
| SimState.PoppedKeeps | aegis_router/event_sim.py:122-123 | popping the least event keeps the invariant and makes the arriving packet the current one |
| SimState.DiscardedKeeps | aegis_router/event_sim.py:123-125 | taking an event past the end off the heap unhandled keeps the invariant; a packet whose arrival it was has lost it for good |
| SimState.BegunKeeps | aegis_router/event_sim.py:117-121 | starting the clock anew, over whatever an earlier run left on the heap, keeps the invariant |
| SimState.DeliveredKeeps | aegis_router/event_sim.py:194-197 | a delivery keeps the invariant |
| SimState.DroppedKeeps | aegis_router/event_sim.py:143-147 | a drop keeps the invariant |
| SimState.ForwardedKeeps | aegis_router/event_sim.py:247-265 | a forward keeps the invariant |
| SimState.SpawnedKeeps | aegis_router/event_sim.py:180-186 | a new packet keeps the invariant |
| SimState.WalkExtends | aegis_router/event_sim.py:255-264 | one more hop keeps the walk simple, hops and TTL in balance, and the exposure flags true to the walk |
| SimState.Disjoint | aegis_router/event_sim.py:247-251 | service intervals on a directed link are disjoint and in the order granted, over all runs, when no time is negative |
| SimState.HopsBound | aegis_router/event_sim.py:192-265 | hops are at most the TTL and the number of nodes less one, arrivals at most TTL + 1, and the visited set has as many nodes as hops |
| Arrival.SameAnswer | aegis_router/event_sim.py:169-178 | metric drift changes no shortest-path answer |
| Arrival.ArriveKeeps | aegis_router/event_sim.py:192-265 | every arrival keeps conservation, walk shape, clocks and link queues, whatever the solver answers and the links do; times are ordered when no latency or service time is negative |
| Arrival.ArriveVerdict | aegis_router/event_sim.py:192-265 | a packet at its destination is delivered, and nothing else is touched; any other is dropped for the one reason that applies, or goes on with path, hops, TTL, clock, risk, queue slot and next arrival as the link says, exactly when its hop is live and the tries reach it |
| Arrival.ArriveKeepsRecord | aegis_router/event_sim.py:192-246 | the record of a dropped packet holds the hop it was sent to or would have been, and after a failing link the risk and exposure a working one would have left |
| Arrival.AllArrive | aegis_router/event_sim.py:192-265 | on a connected network without churn and failing links, under the shortest-path router every packet whose dist is within the TTL is delivered in dist hops, unless its arrival is still to come or lay past the end of a run |
| Arrival.ArriveLossless | aegis_router/event_sim.py:226-246 | an arrival whose tries do not run out loses no packet on a link |
| Arrival.HopClock | aegis_router/event_sim.py:247-265 | the scheduled arrival is created_at + latency less what failed tries were charged |
| Arrival.ArriveLoad | aegis_router/event_sim.py:203-205 | an arrival uses up one of the arrivals its packet had left |
| Arrival.NeverRevisits | aegis_router/event_sim.py:206-208 | a packet that walks down its distance is at no visited node |
| Arrival.KeepsDescending | aegis_router/event_sim.py:211-214 | on a connected graph the shortest-path answer exists and keeps the packet walking down |
| Arrival.ArriveRouted | aegis_router/event_sim.py:192-265 | without churn, an arrival under the shortest-path solver drops no packet for loop, no_route or node_down |
| Arrival.RoutedOutcome | aegis_router/event_sim.py:192-265 | then delivered packets took exactly dist hops, and ttl_expired means that dist exceeds the TTL |
| Arrival.ArriveWary | aegis_router/event_sim.py:200-221 | under a careful solver a packet back at a visited node, or dropped for a loop, had every live neighbour visited when its last hop was chosen, and one dropped for no_route had no live neighbour at all |
| Simulator.TallySum | aegis_router/event_sim.py:143-147 | drop-reason counts sum to the drops |
| Simulator.TallyCounts | aegis_router/event_sim.py:143-147 | each reason is counted exactly as often as it was given |
| Simulator.PartedCount | aegis_router/event_sim.py:133-138 | delivered, dropped and in-flight packets add up to the generated ones |
| SimRuns.CarefulNeverBlames | aegis_router/event_sim.py:215-221 | a careful solver's chosen hop is never down, so it is never told node_down about its own hop |
| SimRuns.ArriveHeard | aegis_router/event_sim.py:215-282 | the solver hears of a success for the last hop of a packet at dst, of a failure for the last hop of one given up, or for the chosen hop if that is down or its link fails, never of a Sybil, and nothing otherwise |
| Simulator.LeastEvent | aegis_router/event_sim.py:122-123 | picks the earliest event, by insertion at equal times |
| Simulator.InFlight | aegis_router/event_sim.py:133-137 | collects exactly the packets without a terminal record, each once |
| Simulator.Churned | aegis_router/event_sim.py:158-164 | there is an order of the nodes in which each goes down or recovers by the next draw, one draw per node, and nobody else changes |
| SimRuns.DriftKeeps | aegis_router/event_sim.py:169-178 | drift keeps the topology, and latencies non-negative in a run without negative times |
| SimRuns.DriftElsewhere | aegis_router/event_sim.py:152-178 | links outside the sample keep their metrics |
| SimRuns.DriftOfLink | aegis_router/event_sim.py:169-178 | a link sampled once drifts from where it was by its own draw, the same at both ends, within the clamps |
| SimRuns.ArriveRuns | aegis_router/event_sim.py:129-130 | handling the least event, if it is an arrival, keeps all invariants and the solver's guarantees, adds events only behind those that are there, and brings the end closer |
| SimRuns.GenerateRuns | aegis_router/event_sim.py:126-128 | so does a generation, which is the only one pending and due where the gaps say |
| SimRuns.PerturbRuns | aegis_router/event_sim.py:131-132 | so does a perturbation, also when earlier runs left several pending |
| SimRuns.TicksFall | aegis_router/event_sim.py:165-167 | a perturbation leaves fewer ticks to come within the horizon, over all pending perturbations |
| SimRuns.OpenedRuns | aegis_router/event_sim.py:117-121 | the first events of a run, put behind whatever an earlier run left, leave everything in order |
| SimRuns.EndedRests | aegis_router/event_sim.py:123-125 | a run that stops at an event past its end leaves no generation and nothing due before the next run starts |
| Simulator.EventDrivenSimulator.constructor | aegis_router/event_sim.py:59-114 | a new simulator, over any latencies and service time, holds nothing yet, is ready to run, and records whether times can only grow |
| Simulator.EventDrivenSimulator.NotifySolver | aegis_router/event_sim.py:267-282 | the solver hears about a packet that has a last hop, with sybil_drop shown as link_loss |
| Simulator.EventDrivenSimulator.Schedule | aegis_router/event_sim.py:140-141 | adds one event under the next counter |
| Simulator.EventDrivenSimulator.Drop | aegis_router/event_sim.py:143-147 | records the drop and its reason, and reports it when told to |
| Simulator.EventDrivenSimulator.Decide | aegis_router/event_sim.py:209-221 | asks the solver once, draws exactly when the answer reaches a link, and drops or forwards as the step says |
| Simulator.EventDrivenSimulator.HandleArrive | aegis_router/event_sim.py:192-265 | a packet at dst is appended to the delivered ones, any other is dropped with its one reason or forwarded field by field; the solver hears one success for the last hop of a delivered packet, one failure for the last or chosen hop of a dropped one, and nothing else; one decision and one draw per transmission are used up exactly when asked and tried |
| Simulator.EventDrivenSimulator.Process | aegis_router/event_sim.py:192-265 | does to all tables exactly what the arrival step says |
| Simulator.EventDrivenSimulator.TryLink | aegis_router/event_sim.py:226-236 | transmits until a draw reaches the loss probability or the retries are used up, and counts the retransmissions |
| Simulator.EventDrivenSimulator.HandleLink | aegis_router/event_sim.py:222-246 | ARQ, then a loss or a place in the link queue, as the step says |
| Simulator.EventDrivenSimulator.Reserve | aegis_router/event_sim.py:247-251 | takes the next free slot of a directed link |
| Simulator.EventDrivenSimulator.Enqueue | aegis_router/event_sim.py:247-265 | queues the packet on its link and schedules the arrival at the far end, as the forward step says |
| Simulator.EventDrivenSimulator.HandleGenerate | aegis_router/event_sim.py:180-190 | appends a new packet with all its fields, for the sampled pair, schedules its arrival at once, and the next generation exactly when its gap ends within the duration |
| Simulator.EventDrivenSimulator.DriftEdge | aegis_router/event_sim.py:169-178 | moves the metrics of one link by the draw, clamped |
| Simulator.EventDrivenSimulator.Congest | aegis_router/event_sim.py:152-156 | the links of the tick's sample drift, each by its own draw |
| Simulator.EventDrivenSimulator.HandlePerturb | aegis_router/event_sim.py:152-167 | the sampled links drift one after the other by their draws, every node goes down or recovers by a draw of its own, nothing else of the network changes, and the next tick is due within the horizon |
| Simulator.EventDrivenSimulator.Disturb | aegis_router/event_sim.py:153-164 | the sampled links drift one after the other by their draws, every node goes down or recovers by a draw of its own, and nothing else of the network changes |
| Simulator.EventDrivenSimulator.Finish | aegis_router/event_sim.py:132-138 | unfinished packets are added to those an earlier run left in flight, so generated equals delivered plus dropped plus in flight exactly if there were none |
| Simulator.EventDrivenSimulator.Handle | aegis_router/event_sim.py:126-132 | handles the least event exactly as its step says, over everything the simulator holds |
| Simulator.EventDrivenSimulator.Discard | aegis_router/event_sim.py:123-125 | ends a run at an event past its end, and leaves the simulator ready for another |
| Simulator.EventDrivenSimulator.RunEvents | aegis_router/event_sim.py:122-132 | the loop ends, and is a sequence of exact steps of the least event until none is left or the next is past the end |
| Simulator.EventDrivenSimulator.Run | aegis_router/event_sim.py:117-138 | every run, also after others of the same simulator, ends and is a sequence of exact steps of the least event until the next is past the end; it conserves packets, keeps the invariant, handles events strictly in order unless times can be negative, and keeps the shortest-path and careful-solver guarantees when they apply; generated equals delivered plus dropped plus in flight exactly if no earlier run left a packet in flight; under the shortest-path solver, without churn and failing draws, every packet whose dist is within its TTL is delivered in dist hops, unless its arrival is still to come or lay past the end |
| SimExamples.OneInFlight | aegis_router/event_sim.py:117-138 | a run of duration 0 over one link of latency 1 leaves its one packet in flight |
| SimExamples.TwoRuns | aegis_router/event_sim.py:132-138 | so the statistics of a second run do not add up |
| SimExamples.OneRun | aegis_router/event_sim.py:117-138 | with a drain time of 1 that packet is delivered, and nothing is dropped or left in flight |
| DaemonSafety.ApplyAuth | aegis_router/daemon.py:313-400 | every step, also an injected message and whatever corrupt nodes sign, keeps deliveries authentic and unique |
| DaemonSafety.AtMostOnce | aegis_router/daemon.py:329-346 | each node accepts each id once; deliveries that claim a source that is not corrupt have distinct ids, were originated by it for that destination, and are at most the generated ones, whatever the corrupt nodes sign |
| DaemonSafety.NoCreditWithoutDelivery | aegis_router/daemon.py:534-552 | nobody is credited for a packet that was not delivered, whatever is injected, unless a corrupt destination has signed for it |
| DaemonSafety.ApplyBooks | aegis_router/daemon.py:451-458 | every step keeps the receipt ledger and the counters |
| DaemonSafety.Accounting | aegis_router/daemon.py:534-575 | confirmed, timed-out and pending verdicts add up to the forwards that opened one, entry by entry |
| DaemonSafety.FlushSettlesAll | aegis_router/daemon.py:577-580 | a sweep of everything leaves nothing pending |
| DaemonSafety.RunSafe | aegis_router/daemon.py:763-770 | all of this holds after every run |
| DaemonHonest.ExclusionUndone | aegis_router/daemon.py:387-392 | adding and removing the siblings' hops leaves `visited` as it was |
| DaemonHonest.WalkOn | aegis_router/daemon.py:459-463 | one more hop keeps path, visited, hops and TTL in order |
| DaemonHonest.ArriveShape | aegis_router/daemon.py:313-400 | every arrival, redundant copies included, keeps packets in flight simple walks |
| DaemonHonest.WalkBounds | aegis_router/daemon.py:459-463 | packets in flight and delivered took at most TTL hops and fewer than there are nodes |
| DaemonHonest.CreditTraced | aegis_router/daemon.py:534-552 | a returning receipt credits the hop just before the ones already credited |
| DaemonHonest.RelayGoesBack | aegis_router/daemon.py:551-552 | a relayed receipt goes to the node before the relaying one on the accepted path |
| DaemonHonest.Provenance | aegis_router/daemon.py:515-552 | a credit of m to n is for an accepted, correctly signed packet whose path has n followed by m, or n last and m the destination, and all later hops of that path are credited |
| DaemonLaws.ArrivesHome | aegis_router/daemon.py:329-346 | a packet at dst with its source's signature is delivered if it is the first of its id there, and answered in receipt mode with the receipt dst signs, to its last forwarder, unless that is down; without the signature it is dropped as bad_signature |
| DaemonLaws.ArrivesElsewhere | aegis_router/daemon.py:347-470 | anywhere else a packet is dropped for the one reason that applies, or exactly one frame goes to the chosen neighbour, one hop further, and its verdict opens in receipt mode |
| DaemonLaws.ForwardCounts | aegis_router/daemon.py:402-450 | every try but the first counts as a retransmission, and a packet given up on the way counts once per id with the exposure it has by then |
| DaemonLaws.ReceiptSettles | aegis_router/daemon.py:534-552 | a receipt that dst signed settles the open verdict of the hop after the node's first place on its path: the entry leaves pending, is confirmed and credited once, and the receipt goes to the node before exactly if there is one and it is up |
| DaemonLaws.ReceiptIgnored | aegis_router/daemon.py:534-549 | any other receipt changes nothing |
| DaemonLaws.CarriedBack | aegis_router/daemon.py:515-564 | once its last forwarder has been sent the receipt, it can be carried back through every node of the path, whatever else happens meanwhile, as long as each still waits for it and the one before is up; then every hop is credited |
| DaemonLaws.AcceptedThenCredited | aegis_router/daemon.py:329-552 | so the acceptance of a packet over a path of distinct nodes can be followed by a run after which every hop of the path is credited |
| DaemonLaws.CopiesCounted | aegis_router/daemon.py:279-311 | while every copy finds a hop, all but the first count as redundant |
| DaemonLaws.CopiesDiverse | aegis_router/daemon.py:279-311 | as long as the solver has a hop that no sibling has taken and that is within the tolerance, no two copies take the same hop |
| DaemonLaws.DiverseWithinTolerance | aegis_router/daemon.py:387-400 | a copy leaves its natural hop only for one its siblings have not taken and that is at most the tolerance riskier, and stays only if there is none |
| DaemonHonest.ExposureBounds | aegis_router/daemon.py:174-180 | transit touches, touches and generated packets are in that order, and no honest run sees a bad signature |
| DaemonHonest.RunHonest | aegis_router/daemon.py:313-580 | all of this holds after every honest run |
| Daemon.ClusterStats.CountSybilTouchOnce | aegis_router/daemon.py:174-180 | each packet id counts once per kind of touch |
| Daemon.ClusterStats.RecordDelivery | aegis_router/daemon.py:165-167 | appends the delivery and counts its touches |
| Daemon.ClusterStats.RecordDrop | aegis_router/daemon.py:169-172 | counts the reason and the touches |
| Daemon.ClusterStats.RecordRetransmissions | aegis_router/daemon.py:182-183 | adds to the retransmissions and to nothing else |
| Daemon.LocalNodeProtocol.constructor | aegis_router/daemon.py:222-267 | a new node has empty tables and sends at least one copy |
| Daemon.LocalNodeProtocol.ObserveOwnLink | aegis_router/daemon.py:472-500 | tells the solver one verdict on a hop of its own, never a Sybil label; an unexplained failure is a link loss |
| Daemon.LocalNodeProtocol.TryLink | aegis_router/daemon.py:412-441 | ARQ, retransmission count and exposure of one forward |
| Daemon.LocalNodeProtocol.Forward | aegis_router/daemon.py:402-470 | does to the cluster exactly what the forward step says; one datagram is sent, one hop further and after latency times the number of tries, exactly if the hop is up and the tries reach it; the verdict opens until clock plus timeout in receipt mode, and else the solver is told at once |
| Daemon.LocalNodeProtocol.Post | aegis_router/daemon.py:451-470 | sends exactly one datagram, one hop further with one less to live, after latency times one more than the failed tries; in receipt mode opens the verdict until clock plus timeout, and else tells the solver of a success |
| Daemon.LocalNodeProtocol.HandleArrival | aegis_router/daemon.py:313-368 | does to the cluster exactly what the arrival step says for the solver's own answers and the link's draws; at dst a verified packet is delivered once and answered with its receipt, and anywhere else one datagram goes out exactly when the packet leaves, field by field; asks the solver exactly when the packet goes on, and reports a forward exactly as far as it is known at once |
| Daemon.LocalNodeProtocol.RiskAwareDiverseHop | aegis_router/daemon.py:370-400 | asks the solver for the packet, and again away from the siblings' hops if they took its answer; the diverse hop is taken exactly when it exists, differs and is not meaningfully riskier |
| Daemon.LocalNodeProtocol.Accept | aegis_router/daemon.py:330-346 | a receipt for every verified copy, a delivery for the first |
| Daemon.LocalNodeProtocol.EmitReceipt | aegis_router/daemon.py:515-532 | the signed receipt goes to the last forwarder, unless nobody forwarded or it is offline |
| Daemon.LocalNodeProtocol.SendReceipt | aegis_router/daemon.py:554-564 | sends the receipt exactly if the receiver is up |
| Daemon.LocalNodeProtocol.SendNewPacket | aegis_router/daemon.py:279-311 | sends up to `redundancy` copies, each stamped by the clock and sent where the solver says for a packet kept from the earlier copies' hops, and stops early only at a copy without a hop |
| Daemon.LocalNodeProtocol.HandleReceipt | aegis_router/daemon.py:534-552 | for a receipt that dst signed, with this node first at position i and the verdict of its hop open: the verdict closes, one confirmation and one success are recorded, and the receipt goes to position i - 1 exactly if there is one and it is up; any other receipt changes nothing |
| Daemon.LocalNodeProtocol.SweepReceiptTimeouts | aegis_router/daemon.py:566-575 | times out exactly the late entries of this node, each with one link_loss failure told to the solver, and keeps the others |
| Daemon.LocalNodeProtocol.FlushPendingReceipts | aegis_router/daemon.py:577-580 | leaves this node nothing pending |
| DaemonFrames.ArriveBeyond | aegis_router/daemon.py:313-368 | an arrival at one node leaves the deliveries and pending verdicts of all others as they are |
| DaemonFrames.ApplyBeyond | aegis_router/daemon.py:313-580 | so does every action, and no message is lost |
| Cluster.LocalCluster.constructor | aegis_router/daemon.py:705-722 | one node with empty tables per node of the graph, over shared counters, for any set of corrupt nodes |
| Cluster.LocalCluster.StepValid | aegis_router/daemon.py:313-580 | after any action at one node the tables of all nodes together are the state of a longer run |
| Cluster.LocalCluster.SendPacket | aegis_router/daemon.py:766-769 | sends a new packet between two nodes and counts it; the run grows by that origination |
| Cluster.LocalCluster.DeliverPacket | aegis_router/daemon.py:272-277 | hands a posted packet to a node; the run grows by that arrival |
| Cluster.LocalCluster.DeliverReceipt | aegis_router/daemon.py:272-275 | hands a posted receipt to a node; the run grows by it |
| Cluster.LocalCluster.SweepAll | aegis_router/daemon.py:784-803 | sweeps all nodes; at shutdown nothing is left pending anywhere, and confirmed and timed-out verdicts add up to those opened |
| ClusterRuns.Guarantees | aegis_router/daemon.py:763-804 | in every reachable cluster, also under attack and with corrupt nodes, the shared counters hold each id at most once per node, distinct and authentic deliveries from all sources that are not corrupt, at most as many as generated packets, and balanced verdicts; every message that was not injected was sent by some node |
| ClusterRuns.HonestGuarantees | aegis_router/daemon.py:763-804 | without an attacker the delivered packets took simple walks within TTL and network size, and exposure counts are in order |
| StateKeys.IntRoundTrip | aegis_router/solvers.py:449-460 | decimal node keys parse back, negative ones too |
| StateKeys.EdgeRoundTrip | aegis_router/solvers.py:682-694 | `a->b` keys parse back to their edge |
| Reputation.ObservedAgrees | aegis_router/solvers.py:698-733 | an observation with a source keeps peer and edge ledgers in step |
| Reputation.LookedUpAgrees | aegis_router/solvers.py:743-750 | the entries a score lookup makes keep them in step, also when the score raises in between |
| Reputation.RestartRoundTrip | aegis_router/solvers.py:672-696 | saving and loading into a new solver gives back the whole restarted memory: ledgers decayed, risks from the durable evidence, the window empty, the budget kept |
| Reputation.AgedAgrees | aegis_router/solvers.py:672-686 | decay keeps them in step |
| Reputation.LedgersAgree | aegis_router/solvers.py:672-750 | after any life the peer aggregate equals the sum of the edges into each peer if and only if no counted observation without a source has lasted |
| Reputation.LifeSurplus | aegis_router/solvers.py:672-750 | after any life each counter of a peer is the sum over all edges into it plus the aged surplus of its sourceless observations |
| Reputation.SurplusExactly | aegis_router/solvers.py:717-718 | that surplus is zero exactly when no counted sourceless observation of the peer has lasted |
| Reputation.SourcelessExample | aegis_router/solvers.py:717-718 | one sourceless delivery gives the peer a delivery that no edge has |
| Reputation.BadnessBounds | aegis_router/solvers.py:402-412 | badness lies in [0, 1] |
| Reputation.BadnessMonotone | aegis_router/solvers.py:402-412 | each failure counter raises badness and deliveries lower it, drops included although they are also evidence |
| LearningLaws.FailureWeights | aegis_router/solvers.py:402-412 | of equally many more failures node_down raises badness least, then ttl_expired, link_loss and loop, strictly until it is one |
| LearningLaws.OutageAgainstDrop | aegis_router/solvers.py:402-412 | one more outage leaves no more badness than one more drop, unless the drop has no aggravating reason and the badness is above 0.95 - 0.05 / evidence and below one |
| LearningLaws.RiskOrder | aegis_router/solvers.py:464-492 | from the same memory the risk after a delivery is at most that after no outcome, and that at most the one after node_down |
| LearningLaws.ChurnAgainstFailure | aegis_router/solvers.py:294-317 | from the same memory the risk after node_down is at most that after any other drop exactly if the drop has an aggravating reason, the badness is outside a band below one, or the recent risk leaves the drop enough room |
| LearningLaws.ChurnOvertakes | aegis_router/solvers.py:294-317 | a peer at full recent risk in that band, for which node_down is riskier than a drop |
| LearningLaws.DeliveryLowersRisk | aegis_router/solvers.py:464-492 | a delivery leaves at most half of what is left of the recent risk, and half of the badness |
| LearningLaws.FailureRaisesRisk | aegis_router/solvers.py:464-492 | a drop that is not node_down leaves a risk of at least the mean of one and the badness, so at least one half |
| LearningLaws.FirstOutcomes | aegis_router/solvers.py:464-492 | with the default decay the first link loss leaves a risk of 0.575, the first delivery 0 |
| LearningLaws.ObservedCounts | aegis_router/solvers.py:698-733 | an observation adds each of its facts once to the peer, and to the edge when the source is known, and changes no other account |
| LearningLaws.BudgetFollowsWindow | aegis_router/solvers.py:357-374 | the window holds the last outcomes, and the budget steps up, within its maximum, exactly when the window is full and holds more drops than the threshold |
| LearningLaws.ReceiptsRaiseSuccess | aegis_router/solvers.py:535-540 | an unseen edge succeeds half the time; confirmations raise the rate, drops lower it, and it stays strictly between 0 and 1 |
| LearningLaws.RestartFades | aegis_router/solvers.py:672-696 | a restart multiplies every counter by the decay, sets every risk to the badness of that, which is at most the badness before, and empties the window |
| LearningLaws.RiskNeverScores | aegis_router/solvers.py:743-750 | more risk, badness or edge badness, or fewer confirmed receipts, never raise a score, and lower it where their weight is positive |
| LearningLaws.DeliveryScoresBetter | aegis_router/solvers.py:698-750 | from the same memory a hop scores at least as well after a delivery over it as after a failure |
| Reputation.ObservedOk | aegis_router/solvers.py:464-492 | risks stay in [0, 1] and counters non-negative |
| Reputation.Life | aegis_router/solvers.py:672-750 | the memory after any sequence of operations has risks in [0, 1] and non-negative counters |
| Reputation.BudgetNeverFalls | aegis_router/solvers.py:353-388 | over any life the budget never falls if and only if it starts at or below its maximum and the step is not negative, or it is never relaxed |
| Reputation.BudgetExample | aegis_router/solvers.py:357-388 | with the defaults ten drops in a row lower a budget of 0.8 to 0.55 |
| Selection.PreferredIsCareful | aegis_router/solvers.py:278-284 | choosing among preferred neighbours is careful: a live neighbour, unvisited whenever there is one |
| Selection.HybridNextHop | aegis_router/agent.py:99-129 | the best-scored preferred neighbour, None exactly without live neighbours; raises exactly when the score of a preferred neighbour does |
| Selection.RiskAwareNextHop | aegis_router/solvers.py:273-292 | the best-scored affordable preferred neighbour, or the best-scored preferred one exactly when none is affordable; raises exactly when the score of a candidate does |
| RoutingLaws.AffordableMonotone | aegis_router/solvers.py:285-290 | dst is always affordable; a larger budget, a less lossy link or a less exposed packet never makes a hop unaffordable; a lossless link costs none of the budget and a dead one all of it |
| Selection.TrustNextHop | aegis_router/solvers.py:200-218 | dst if it is a live neighbour, else the preferred neighbour that beats all others by trust, progress and id |
| Selection.TrustAnswerUnique | aegis_router/solvers.py:211-218 | that answer does not depend on the order of neighbours |
| RoutingLaws.TrustAnswerIsBest | aegis_router/solvers.py:211-218 | unless dst is a live neighbour, no preferred neighbour has more trust than the answer, none of equal trust makes more progress, and none of equal progress a smaller id |
| EdgeSolver.EigenTrustSolver.NextHop | aegis_router/solvers.py:200-218 | the trust answer over the shared trust vector, which is careful; raises exactly when the progress hint of a ranked neighbour does |
| EdgeSolver.RepuLinkSolver.NextHop | aegis_router/repulink.py:390-408 | the trust answer over the shared reputation vector, which is careful; raises exactly when the progress hint of a ranked neighbour does |
| EdgeSolver.RankingRaisesNever | aegis_router/solvers.py:211-218 | with a landmark, or without vectors, it never raises |
| EdgeSolver.ScoringRaisesNever | aegis_router/agent.py:140-146 | nor do the hybrid, risk-aware and edge routers, for base scores that raise only where their progress hint does |
| EdgeSolver.FindTrustedPath | aegis_router/solvers.py:575-654 | for any trust thresholds: a link to dst if there is one, else a shortest trusted path over one or two relays, None exactly when there is none or the TTL is below two or dst is offline |
| LearningLaws.TrustedIsVetted | aegis_router/solvers.py:596-646 | the trusted paths are those over one or two relays that are live, unvisited and within the risk limit, and over known edges within the limits on receipts and badness |
| EdgeSolver.TwoHopRelay | aegis_router/solvers.py:596-617 | for any trust thresholds: finds a trusted single relay exactly when there is one |
| EdgeSolver.ThreeHopRelays | aegis_router/solvers.py:619-646 | for any trust thresholds: finds a trusted pair of relays exactly when there is one |
| EdgeSolver.TrustedIsLive | aegis_router/solvers.py:575-654 | a path found is a walk over live nodes to dst with unvisited relays |
| EdgeSolver.EdgeIsCareful | aegis_router/solvers.py:656-670 | the edge router's answer is careful |
| EdgeSolver.Tallied | aegis_router/solvers.py:477-488 | the branches add exactly one observation's gain |
| EdgeSolver.EdgeLearningSolver.Save | aegis_router/solvers.py:688-696 | writes every peer and edge under its own key, and nothing else |
| EdgeSolver.EdgeLearningSolver.Load | aegis_router/solvers.py:672-686 | raises exactly for a malformed key or for a peer whose decayed counters leave its badness undefined, else puts every entry decayed over what the solver already had, and restarts the risks of loaded peers from badness |
| EdgeSolver.Restart | aegis_router/solvers.py:672-696 | saving and loading into a new solver restarts the memory as specified |
| EdgeSolver.EdgeLearningSolver.ObserveResult | aegis_router/solvers.py:698-733 | updates risk, window, budget, peer and edge as one observation |
| EdgeSolver.EdgeLearningSolver.ScoreHop | aegis_router/solvers.py:743-750 | scores a hop by risk, badness and receipts, and makes the entries it looks up; a base score that raises has looked up the edge only |
| EdgeSolver.EdgeLearningSolver.BestScored | aegis_router/solvers.py:273-292 | picks the best learned score among the candidates, on scores that the lookups do not change; raises exactly when a candidate's base score does |
| EdgeSolver.EdgeLearningSolver.NextHop | aegis_router/solvers.py:656-670 | the first hop of a trusted path, else the best learned score; raises exactly when it falls back to scores and a candidate's base score does; it makes entries for scored candidates only |

## Left out

- UDP sockets, asyncio scheduling, the drain periods of the cluster, JSON and the wall clock: messages are a set, steps are atomic, and clock readings are oracle values.
- ML-DSA and ML-KEM internals and signed endorsements: signatures are ideal, and endorsements are added unsigned.
- Floating-point rounding, the exponential of the evidence saturation and the entropy diagnostics: exact reals and any strictly increasing saturating function.
- `QRoutingAgent`, its rewards and training, and the numeric weights of the hybrid score: the routers are proved for any score.
- Benchmarks, statistics over runs, `auto_opt`, plotting, demos and command lines.
- Checks of numeric settings that raise ValueError in constructors: they are preconditions here.
- The concrete bounds from which `generate_random_graph` samples metrics, and how many links a perturbation tick samples: metrics and samples are oracle values.
- `EventStats` averages and ratios: counts only.
- The daemon's own perturbation loop: it changes the graph as a tick of the simulator does, and every step takes the graph as it finds it, as long as the links stay.
- Closed transports at shutdown: a message that is not delivered is one of the network's choices.
- Receipt credit when two redundant copies share a next hop: they share one verdict, as in the code, and only the first insertion counts as opening it.
- The hop search and the quality search share one search over link weights, since their loops differ only in the weight.
- Packets are values kept in the simulator's table under their id, so aliasing between a packet and a solver that keeps a reference to it is not modelled.
- The zero entries that reading a missing peer risk makes: a missing risk reads as zero and is never saved.
- Simulator.EventDrivenSimulator.Run: which draws the gaps come from is open, but from some generation on they must have outlasted the duration, or the loop would not end.
- RepuLink.RepuLinkLedger.Recompute: convergence within the default iterations is not stated, since its contraction factor is only 0.95.
- EdgeSolver.EdgeLearningSolver.Load: keys with decimal digits other than 0 to 9, which `int` also reads, count as malformed; a file with negative counters, which no save writes, is loaded as stated, but what the solver does after it is not, and neither is what a load that raises has read so far.
- EdgeSolver.FindTrustedPath: whether a path fits the TTL is not stated, since a path of three links is accepted with a TTL of two.
