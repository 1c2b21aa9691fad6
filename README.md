# nexus-core adaptive routing, modelled in Dafny

This project models the routing arithmetic of the nexus-core logistics scripts. Three scripts share one idea:

- A random network of cities has edges that carry a distance and a risk, or a cost inflated by a risk penalty.
- A route between two cities is totalled edge by edge.
- An `AdaptiveRouter` scores each decision with two blend weights (cost and risk). It then nudges the weights towards whichever side dominated, clamps each weight to [0.1, 0.9], and logs the decision.

The modules follow the scripts:

- `Network` (`network.dfy`) holds what all three scripts share:
  - undirected graphs whose edges are unordered pairs of city names, so `G[u][v]` and `G[v][u]` are one edge;
  - the path sum over consecutive node pairs, and the accumulation loop that computes it;
  - the `add_edge` sequence, in which the last call wins.
- `WeightControl` (`weight_control.dfy`) holds the weight arithmetic common to both `AdaptiveRouter` variants:
  - clamp, nudge and score;
  - repeated nudges, saturation, and a run of decisions as a fold.
- `NexusCore` (`day2_nexus_core.py`):
  - the random road network;
  - `risk_penalty` (weather delay plus traffic delay);
  - the pass that stores `cost = distance * (1 + penalty)` on every edge in place;
  - the `total_cost` of a chosen path.
- `AdaptiveRouting` (`day_3.py`):
  - the generated graph, whose edge risk is weather plus traffic;
  - the router that compares total risk with total cost, with a step of 0.03;
  - `optimizer_agent` (total, score, update, log);
  - the decision loop.
- `ParallelEngine` (`parallel_engine_day4.py`):
  - the complete graph on six cities;
  - the router that compares path risk with a fixed 0.5 threshold, with a step of 0.01 and a score that weighs risk 100 times;
  - the wind-speed risk mapping with its fallback;
  - `optimized_decision`;
  - a batch of decisions.

The routers and the day-2 network are classes whose methods update their fields. Each such method is specified by a pure function of the old state: `Update`, `Run` or `WithCosts`. The properties are lemmas about those functions.

Modelling conventions:

- Weights, risks and costs are exact `real`s.
- Every random draw (`random.sample`, `random.randint`, `random.uniform`) is a parameter whose precondition is the range the call can return.
- The path returned by `nx.shortest_path` is a given node sequence. Its precondition is that consecutive nodes are joined by an edge (`IsWalk`).

Facts about the code that shape the model:

- The graphs are built by a fixed number of random `add_edge` calls (day 2, day 3) or as a complete graph (day 4). Nothing afterwards checks or repairs connectivity.
- Each weight is clamped on its own and the pair is never renormalised. In exact arithmetic, opposite nudges and bounds symmetric about 0.5 keep the sum at exactly 1 from (0.5, 0.5) onwards (`RunKeepsBalance`).
- The day-4 router is updated without any lock.
- In day 4, the risk agent's weather value (read or fallback) only appears in its message; the router never reads it.

## Model

| member | source | states |
|---|---|---|
| WeightControl.Clamp | src/day_3.py:80-81 | `max(0.1, min(0.9, x))` lies in [0.1, 0.9]. It is the identity inside that range, 0.1 below it and 0.9 above it. |
| WeightControl.Nudge | src/day_3.py:70-81 | After a nudge of `step` and the independent clamps, both weights are in bounds. From an in-bounds state each weight moves by at most `step`, and the favoured weight never goes down while the other never goes up. |
| WeightControl.NudgeKeepsBalance | src/day_3.py:72-81 | In-bounds weights that sum to 1 still sum to 1 after a nudge and clamp, whichever direction. |
| WeightControl.ScoreBetween | src/day_3.py:64-68 | With balanced weights the score is a convex blend: it lies between the two totals. |
| WeightControl.ScoreBounds | src/day_3.py:64-68 | With in-bounds weights and non-negative totals, the score lies between 0.1 and 0.9 times the sum of the totals. |
| WeightControl.RepeatFromStart | src/day_3.py:72-81 | Until a clamp bites, n same-direction nudges from (0.5, 0.5) move the favoured weight up by exactly n·step and the other down by exactly n·step. |
| WeightControl.RepeatSaturated | src/day_3.py:72-81 | The saturated state (0.9 favoured, 0.1 other) is a fixed point of further nudges in the same direction. |
| WeightControl.RepeatAdd | src/day_3.py:70-81 | m nudges after n nudges equal n + m nudges. |
| WeightControl.RunSnoc | src/day_3.py:173-183 | One more decision nudges the weights that the earlier decisions reached. |
| WeightControl.RunKeepsBalance | src/day_3.py:173-183 | Any sequence of decisions from a balanced state ends balanced: in bounds and summing to 1. |
| WeightControl.RunUniform | src/day_3.py:173-183 | A run of decisions that all point the same way equals that many repeated nudges. |
| Network.WalkPrefix | src/day_3.py:130-131 | Every prefix of a walk is a walk, so each edge lookup `G[path[i]][path[i+1]]` finds an edge. |
| Network.PathSumStep | src/day_3.py:130-133 | Summing from the front: the prefix ending at node i+1 adds the weight of edge (path[i], path[i+1]) to the prefix ending at node i. |
| Network.PathSumMonotone | src/day2_nexus_core.py:111-114 | If one edge weight is at most another on every edge, the same holds for the path sums. |
| Network.PathSumStrict | src/day_3.py:130-133 | A strict edge-wise bound gives a strict bound on the sums of every path with at least one edge. |
| Network.PathSumNonnegative | src/day_3.py:130-133 | Non-negative edge weights give a non-negative path sum. |
| Network.PathSumScale | src/day2_nexus_core.py:111-114 | Scaling every edge weight by k scales the path sum by k. |
| Network.PathTotals | src/day_3.py:127-133 | The accumulation loop returns exactly the sum of `distance` and the sum of `risk` over consecutive pairs of the path. A one-node path gives 0. |
| Network.AddedEdges | src/day_3.py:27-40 | After a sequence of `add_edge` calls, the edges are exactly the drawn pairs, and each edge carries the attributes of some draw of its pair. |
| AdaptiveRouting.EdgeRisk | src/day_3.py:31-34 | Weather risk in [0.05, 0.25] plus traffic risk in [0.05, 0.20] gives an edge risk in [0.10, 0.45] that is at least each part. |
| AdaptiveRouting.BuildLogisticsGraph | src/day_3.py:21-42 | The graph has one node per city, and its edges are the `add_edge` sequence of the draws (last draw of a pair wins). Every edge joins two cities and has distance in [50, 400] and risk in [0.10, 0.45]. |
| AdaptiveRouting.GeneratedRiskBelowCost | src/day_3.py:30-34 | On a generated graph, every path with an edge has total risk strictly below total distance, and a one-node path has both totals 0. |
| AdaptiveRouting.Update | src/day_3.py:70-81 | The weights move towards risk exactly when total risk is strictly above total cost; a tie goes to cost. The result is in bounds, and each weight moves by at most 0.03. |
| AdaptiveRouting.SaturatesAfterFourteen | src/day_3.py:72-81 | From (0.5, 0.5), thirteen same-direction updates reach 0.89. Fourteen or more reach exactly (0.1, 0.9), or its mirror, and stay there. |
| AdaptiveRouting.AdaptiveRouter.constructor | src/day_3.py:59-62 | A fresh router has both weights at 0.5 and an empty log, and it is balanced. |
| AdaptiveRouting.AdaptiveRouter.ComputeScore | src/day_3.py:64-68 | Reads the weights and changes nothing. The result is `weight_cost*total_cost + weight_risk*total_risk`, which lies between the two totals when the router is balanced. |
| AdaptiveRouting.AdaptiveRouter.UpdateWeights | src/day_3.py:70-81 | The new weights are `Update` of the old ones. The log is unchanged, and a balanced router stays balanced. |
| AdaptiveRouting.AdaptiveRouter.Log | src/day_3.py:83-91 | Appends exactly one entry, holding the route, the totals, the score and the current weights. The weights are unchanged. |
| AdaptiveRouting.OptimizerAgent | src/day_3.py:120-137 | The totals are the path sums. The score uses the weights before the update, and the weights then become `Update` of the old ones. The log grows by one entry that records the weights after the update. |
| AdaptiveRouting.Directions | src/day_3.py:72-77 | Decision k moves towards risk exactly when its path's total risk is above its total distance. |
| AdaptiveRouting.RunDecisions | src/day_3.py:173-183 | After the decisions in order, the weights are the fold of `Nudge` over their directions. The log has grown by one entry per decision, and a balanced router stays balanced. |
| AdaptiveRouting.GeneratedDecisionsSaturate | src/day_3.py:173-183 | On a generated graph every decision goes to cost, so fourteen or more decisions from (0.5, 0.5) that all find a path, such as the script's fifteen, end at exactly (0.9, 0.1). |
| ParallelEngine.RowLinksAdds | src/parallel_engine_day4.py:26-32 | The inner loop of row i adds each pair (i, q) with its own draw. |
| ParallelEngine.RowLinksKeeps | src/parallel_engine_day4.py:26-32 | The inner loop of row i leaves every edge that is not one of its pairs as it was. |
| ParallelEngine.RowLinksKeys | src/parallel_engine_day4.py:26-32 | The inner loop of row i adds exactly its pairs to the edge set. |
| ParallelEngine.RowsHave | src/parallel_engine_day4.py:25-32 | After rows 0 to i-1, every pair (p, q) with p < i and p < q is an edge that carries the draw for (p, q). |
| ParallelEngine.RowsOnlyPairs | src/parallel_engine_day4.py:25-32 | After rows 0 to i-1, there is no edge except those pairs. |
| ParallelEngine.AddRow | src/parallel_engine_day4.py:26-32 | The inner loop computes the edge map of the row fold `RowLinks`. |
| ParallelEngine.BuildCompleteGraph | src/parallel_engine_day4.py:22-32 | The nested loops give one node per city and the edge map of the row fold `Rows`. |
| ParallelEngine.BuiltGraphIsComplete | src/parallel_engine_day4.py:22-32 | With distinct cities the built graph is complete. Every two different cities are joined by one edge, which carries the draw for their pair, and there is no other edge. |
| ParallelEngine.BuiltGraphInRange | src/parallel_engine_day4.py:27-32 | Every built edge has distance in [50, 500] and risk in [0.1, 0.9]. |
| ParallelEngine.CitiesDistinct | src/parallel_engine_day4.py:20 | The six city names are distinct, so the setup builds K6. |
| ParallelEngine.WeatherRisk | src/parallel_engine_day4.py:72-85 | The risk is never above 0.3. A wind reading gives at most wind/100, exactly 0.3 from a wind speed of 30 up, and a non-negative value for non-negative wind. A failed reading gives the fallback. |
| ParallelEngine.Update | src/parallel_engine_day4.py:45-54 | The weights move towards risk exactly when risk is strictly above 0.5; the cost plays no part. The result is in bounds, and each weight moves by at most 0.01. |
| ParallelEngine.SaturatesAfterForty | src/parallel_engine_day4.py:45-54 | From (0.5, 0.5), thirty-nine same-direction updates reach 0.89. Forty or more reach exactly (0.1, 0.9), or its mirror, and stay there. |
| ParallelEngine.AdaptiveRouter.constructor | src/parallel_engine_day4.py:37-40 | A fresh router has both weights at 0.5 and an empty history, and it is balanced. |
| ParallelEngine.AdaptiveRouter.ComputeScore | src/parallel_engine_day4.py:42-43 | Reads the weights and changes nothing. The result is `cost*weight_cost + risk*100*weight_risk`, which lies between cost and 100·risk when the router is balanced. |
| ParallelEngine.AdaptiveRouter.UpdateWeights | src/parallel_engine_day4.py:45-54 | The new weights are `Update` of the old ones and depend on the risk argument only. The history is unchanged, and a balanced router stays balanced. |
| ParallelEngine.AdaptiveRouter.Log | src/parallel_engine_day4.py:56-62 | Appends exactly one record {path, cost, risk, score} and leaves the weights untouched. |
| ParallelEngine.OptimizedDecision | src/parallel_engine_day4.py:124-143 | The totals are the path sums. The score uses the weights before the update, then the weights become `Update` of the old ones, and then one record is logged. |
| ParallelEngine.Directions | src/parallel_engine_day4.py:46-51 | Decision k moves towards risk exactly when its path risk is above 0.5. |
| ParallelEngine.RunBatch | src/parallel_engine_day4.py:160-195 | Decisions applied one after another leave the weights at the fold of `Nudge` over their directions. The history grows by one record per decision. |
| ParallelEngine.BatchOrderMatters | src/parallel_engine_day4.py:185-188 | The final weights depend on the order in which a batch's updates land. From (0.1, 0.9), risky then safe gives (0.11, 0.89), but safe then risky gives (0.1, 0.9). |
| NexusCore.RiskPenalty | src/day2_nexus_core.py:48-56 | Weather delay in [0, 0.3] plus traffic delay in [0, 0.2] gives a penalty in [0, 0.5] that is at least each part. |
| NexusCore.HybridCost | src/day2_nexus_core.py:63 | `distance * (1 + penalty)` exceeds the distance by exactly distance·penalty. For a non-negative distance it lies between the distance and 1.5 times the distance. |
| NexusCore.InflationBounds | src/day2_nexus_core.py:63 | A penalty in [0, 0.5] adds between nothing and half the distance. |
| NexusCore.CostRange | src/day2_nexus_core.py:36-63 | A distance drawn from [50, 500] gets a cost in [50, 750]. |
| NexusCore.WithCosts | src/day2_nexus_core.py:60-63 | After the risk pass the edge set is the same, every distance is unchanged, every edge has a cost, and each cost lies between its distance and 1.5 times it. |
| NexusCore.LogisticsNetwork.constructor | src/day2_nexus_core.py:27-37 | One node per city. The edges are the `add_edge` sequence of the draws (last draw of a pair wins), each with distance in [50, 500] and no cost yet. |
| NexusCore.LogisticsNetwork.ApplyRiskModel | src/day2_nexus_core.py:60-63 | The loop over the edges leaves the routes equal to `WithCosts` of the old routes and the nodes unchanged. |
| NexusCore.LogisticsNetwork.TotalCost | src/day2_nexus_core.py:111-114 | The sum of edge cost over consecutive pairs is 0 for a one-node path and never below the path's total distance. |
| NexusCore.RiskPassKeepsWalks | src/day2_nexus_core.py:60-63 | After the risk pass every route is costed with a cost at most 1.5 times its distance, and every walk is still a walk. |
| NexusCore.CostBounds | src/day2_nexus_core.py:111-114 | After the risk pass, a path's total cost lies between its total distance and 1.5 times that distance. |

## Left out

- `src/day1.py` is not part of this model. It is asynchronous HTTP, random positions, plotting and workflow wiring, with no routing arithmetic.
- `config/day_2_settings.py` is not part of this model. It holds environment-variable constants only.
- The internals of `nx.shortest_path`: the returned path is an input with an `IsWalk` precondition. Minimality of the path is not modelled, because the repository contains no shortest-path algorithm of its own.
- The failure of `nx.shortest_path` when no path exists (`src/day2_nexus_core.py:109`, `src/day_3.py:125`):
  - the random graphs of day 2 (45 draws, `src/day2_nexus_core.py:34-37`) and day 3 (50 draws, `src/day_3.py:27-40`) can leave two cities disconnected;
  - `networkx.NetworkXNoPath` is then raised and caught nowhere, so the script stops at that decision, keeping the weight updates of the earlier decisions;
  - the `IsWalk` preconditions of `OptimizerAgent` and `RunDecisions` exclude this case (the complete day-4 graph always has a path);
  - `GeneratedDecisionsSaturate`'s fifteen-decision reading holds only when all fifteen decisions find a path.
- Random draws: every draw is a parameter constrained to its range. The `random.seed(42)` sequence is not modelled.
- The HTTP request to open-meteo and its exceptions: their outcome is the `Reading` parameter of `WeatherRisk`, and the fallback draw is a parameter in [0.05, 0.25].
- Concurrency and timing:
  - the `ThreadPoolExecutor` stages of `parallel_agents`, the concurrent batch, and the `time.time()` fields are left out;
  - a batch is modelled as its decisions applied one after another in a given order, so the interleaving of concurrent read-modify-write updates (lost updates) is not modelled.
- IEEE floating-point rounding: reals are exact. The exact saturation values and the sum of 1 hold in exact arithmetic only.
- The narrative strings of the agents, `print`, pandas DataFrames, matplotlib plotting and the langgraph `StateGraph` wiring.
- AdaptiveRouting.AdaptiveRouter.Log: the route is stored as the node sequence rather than its `str()` text.
- AdaptiveRouting.BuildLogisticsGraph: modelled as a method that returns the graph, because the script builds a local graph and returns it. The city names `City-1` … `City-20` are a parameter.
- ParallelEngine.BuildCompleteGraph: modelled as a method that returns the graph the module-level loops fill in.
- AdaptiveRouting.RunDecisions: states the final weights and the number of log entries. The contents of each entry are stated per decision by `OptimizerAgent`.
- ParallelEngine.RunBatch: states the final weights and the number of history records. It returns the scores rather than the decision states, and the contents of each record are stated per decision by `OptimizedDecision`.
