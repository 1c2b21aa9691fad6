/** The day-4 parallel engine: a complete graph on six cities, an
    AdaptiveRouter whose update looks only at the path risk against a fixed
    0.5 threshold with a step of 0.01 and whose score weighs risk 100 times,
    the wind-speed risk signal with its fallback, and batches of decisions
    (taken here one after another). */
module ParallelEngine {
  import opened Network
  import opened WeightControl

  /** The nudge size of update_weights. */
  const Step: real := 0.01

  /** Path risk strictly above this moves weight towards risk. */
  const Threshold: real := 0.5

  const Cities: seq<Node> := ["Delhi", "Mumbai", "Chennai", "Kolkata", "Bangalore", "Hyderabad"]

  /** What random.randint(50, 500) and random.uniform(0.1, 0.9) can return for one edge. */
  predicate ValidLink(l: Link) {
    50 <= l.distance <= 500 && 0.1 <= l.risk <= 0.9
  }

  predicate Distinct(cities: seq<Node>) {
    forall i, j :: 0 <= i < |cities| && 0 <= j < |cities| && i != j ==> cities[i] != cities[j]
  }

  /** `draws` holds one attribute record for every (i, j) with i < j. */
  predicate DrawTable(cities: seq<Node>, draws: seq<seq<Link>>) {
    |draws| == |cities| && forall i :: 0 <= i < |draws| ==> |draws[i]| == |cities|
  }

  /** The edges after the inner loop has added (i, q) for every i < q < j to `links`. */
  function RowLinks(cities: seq<Node>, draws: seq<seq<Link>>, links: map<Edge, Link>, i: nat, j: nat): map<Edge, Link>
    requires DrawTable(cities, draws) && i < j <= |cities|
    decreases j
  {
    if j == i + 1 then links
    else RowLinks(cities, draws, links, i, j - 1)[Pair(cities[i], cities[j - 1]) := draws[i][j - 1]]
  }

  /** The edges after the outer loop has finished the rows 0 .. i - 1. */
  function Rows(cities: seq<Node>, draws: seq<seq<Link>>, i: nat): map<Edge, Link>
    requires DrawTable(cities, draws) && i <= |cities|
  {
    if i == 0 then map[] else RowLinks(cities, draws, Rows(cities, draws, i - 1), i - 1, |cities|)
  }

  /** The pairs row i adds before column j. */
  function RowKeys(cities: seq<Node>, i: nat, j: nat): set<Edge>
    requires i < j <= |cities|
  {
    set q | i < q < j :: Pair(cities[i], cities[q])
  }

  /** Within one row, different columns give different pairs. */
  lemma RowPairsDiffer(cities: seq<Node>, i: nat, q: nat, r: nat)
    requires Distinct(cities) && i < q < r < |cities|
    ensures Pair(cities[i], cities[q]) != Pair(cities[i], cities[r])
  {
    assert cities[q] != cities[r] && cities[q] != cities[i];
    assert cities[q] !in Pair(cities[i], cities[r]);
  }

  /** Row i, up to column j, adds each pair (i, q) with its draw. */
  lemma {:induction false} RowLinksAdds(cities: seq<Node>, draws: seq<seq<Link>>, links: map<Edge, Link>, i: nat, j: nat)
    requires Distinct(cities) && DrawTable(cities, draws) && i < j <= |cities|
    ensures forall q :: i < q < j ==>
      Pair(cities[i], cities[q]) in RowLinks(cities, draws, links, i, j)
      && RowLinks(cities, draws, links, i, j)[Pair(cities[i], cities[q])] == draws[i][q]
  {
    if j > i + 1 {
      RowLinksAdds(cities, draws, links, i, j - 1);
      var before := RowLinks(cities, draws, links, i, j - 1);
      var key := Pair(cities[i], cities[j - 1]);
      forall q | i < q < j
        ensures Pair(cities[i], cities[q]) in before[key := draws[i][j - 1]]
        ensures before[key := draws[i][j - 1]][Pair(cities[i], cities[q])] == draws[i][q]
      {
        if q < j - 1 {
          RowPairsDiffer(cities, i, q, j - 1);
        }
      }
    }
  }

  /** Row i leaves every edge that is not one of its pairs as it was. */
  lemma {:induction false} RowLinksKeeps(cities: seq<Node>, draws: seq<seq<Link>>, links: map<Edge, Link>, i: nat, j: nat, k: Edge)
    requires DrawTable(cities, draws) && i < j <= |cities|
    requires k in links && k !in RowKeys(cities, i, j)
    ensures k in RowLinks(cities, draws, links, i, j) && RowLinks(cities, draws, links, i, j)[k] == links[k]
  {
    if j > i + 1 {
      assert Pair(cities[i], cities[j - 1]) in RowKeys(cities, i, j);
      assert RowKeys(cities, i, j - 1) <= RowKeys(cities, i, j);
      RowLinksKeeps(cities, draws, links, i, j - 1, k);
    }
  }

  /** Row i adds exactly its pairs to the edge set. */
  lemma {:induction false} RowLinksKeys(cities: seq<Node>, draws: seq<seq<Link>>, links: map<Edge, Link>, i: nat, j: nat)
    requires DrawTable(cities, draws) && i < j <= |cities|
    ensures RowLinks(cities, draws, links, i, j).Keys == links.Keys + RowKeys(cities, i, j)
  {
    if j > i + 1 {
      RowLinksKeys(cities, draws, links, i, j - 1);
      assert RowKeys(cities, i, j) == RowKeys(cities, i, j - 1) + {Pair(cities[i], cities[j - 1])};
    }
  }

  /** With distinct cities, a pair (p, q) of an earlier row p < i is none of row i's pairs. */
  lemma NotInRow(cities: seq<Node>, i: nat, p: nat, q: nat)
    requires Distinct(cities) && p < i < |cities| && p < q < |cities|
    ensures Pair(cities[p], cities[q]) !in RowKeys(cities, i, |cities|)
  {
    forall r | i < r < |cities|
      ensures Pair(cities[p], cities[q]) != Pair(cities[i], cities[r])
    {
      assert cities[p] != cities[i] && cities[p] != cities[r];
      assert cities[p] !in Pair(cities[i], cities[r]);
    }
  }

  /** After rows 0 .. i - 1, every pair (p, q) with p < i and p < q is an
      edge carrying the draw for (p, q). */
  lemma {:induction false} RowsHave(cities: seq<Node>, draws: seq<seq<Link>>, i: nat)
    requires Distinct(cities) && DrawTable(cities, draws) && i <= |cities|
    ensures forall p, q :: 0 <= p < i && p < q < |cities| ==>
      Pair(cities[p], cities[q]) in Rows(cities, draws, i) && Rows(cities, draws, i)[Pair(cities[p], cities[q])] == draws[p][q]
  {
    if i > 0 {
      var prev := Rows(cities, draws, i - 1);
      RowsHave(cities, draws, i - 1);
      RowLinksAdds(cities, draws, prev, i - 1, |cities|);
      forall p, q | 0 <= p < i - 1 && p < q < |cities|
        ensures Pair(cities[p], cities[q]) in Rows(cities, draws, i)
        ensures Rows(cities, draws, i)[Pair(cities[p], cities[q])] == draws[p][q]
      {
        NotInRow(cities, i - 1, p, q);
        RowLinksKeeps(cities, draws, prev, i - 1, |cities|, Pair(cities[p], cities[q]));
      }
    }
  }

  /** After rows 0 .. i - 1 there is no edge but the pairs (p, q) with p < i and p < q. */
  lemma {:induction false} RowsOnlyPairs(cities: seq<Node>, draws: seq<seq<Link>>, i: nat)
    requires DrawTable(cities, draws) && i <= |cities|
    ensures forall k :: k in Rows(cities, draws, i) ==>
      exists p, q :: 0 <= p < i && p < q < |cities| && k == Pair(cities[p], cities[q])
  {
    if i > 0 {
      var prev := Rows(cities, draws, i - 1);
      RowsOnlyPairs(cities, draws, i - 1);
      RowLinksKeys(cities, draws, prev, i - 1, |cities|);
      forall k | k in Rows(cities, draws, i)
        ensures exists p, q :: 0 <= p < i && p < q < |cities| && k == Pair(cities[p], cities[q])
      {
        if k in prev {
          var p, q :| 0 <= p < i - 1 && p < q < |cities| && k == Pair(cities[p], cities[q]);
        } else {
          assert k in RowKeys(cities, i - 1, |cities|);
          var q :| i - 1 < q < |cities| && k == Pair(cities[i - 1], cities[q]);
        }
      }
    }
  }

  /** The inner loop of the setup: add the edges (i, j) for j = i + 1 .. n - 1. */
  method AddRow(cities: seq<Node>, draws: seq<seq<Link>>, links: map<Edge, Link>, i: nat) returns (links': map<Edge, Link>)
    requires DrawTable(cities, draws) && i < |cities|
    ensures links' == RowLinks(cities, draws, links, i, |cities|)
  {
    links' := links;
    var j := i + 1;
    while j < |cities|
      invariant i + 1 <= j <= |cities|
      invariant links' == RowLinks(cities, draws, links, i, j)
    {
      links' := links'[Pair(cities[i], cities[j]) := draws[i][j]];
      j := j + 1;
    }
  }

  /** The graph setup: one node per city, then for every i < j one edge
      between cities[i] and cities[j] whose attributes are the draws for
      (i, j). */
  method BuildCompleteGraph(cities: seq<Node>, draws: seq<seq<Link>>) returns (g: Graph<Link>)
    requires DrawTable(cities, draws)
    ensures g.nodes == set c | c in cities
    ensures g.links == Rows(cities, draws, |cities|)
  {
    var links: map<Edge, Link> := map[];
    var i := 0;
    while i < |cities|
      invariant 0 <= i <= |cities|
      invariant links == Rows(cities, draws, i)
    {
      links := AddRow(cities, draws, links, i);
      i := i + 1;
    }
    var nodes := set c | c in cities;
    g := Graph(nodes, links);
  }

  /** The built graph is complete: every two different cities are joined by
      exactly one edge, which carries the draw for their pair, and there is
      no other edge. */
  lemma BuiltGraphIsComplete(cities: seq<Node>, draws: seq<seq<Link>>)
    requires Distinct(cities) && DrawTable(cities, draws)
    ensures forall u, v :: u in cities && v in cities && u != v ==> Pair(u, v) in Rows(cities, draws, |cities|)
    ensures forall i, j :: 0 <= i < j < |cities| ==>
      Rows(cities, draws, |cities|)[Pair(cities[i], cities[j])] == draws[i][j]
    ensures forall e :: e in Rows(cities, draws, |cities|) ==>
      exists u, v :: u in cities && v in cities && u != v && e == Pair(u, v)
  {
    var links := Rows(cities, draws, |cities|);
    RowsHave(cities, draws, |cities|);
    RowsOnlyPairs(cities, draws, |cities|);
    forall u, v | u in cities && v in cities && u != v
      ensures Pair(u, v) in links
    {
      var p :| 0 <= p < |cities| && cities[p] == u;
      var q :| 0 <= q < |cities| && cities[q] == v;
      if p < q {
        assert Pair(cities[p], cities[q]) in links;
      } else {
        assert Pair(cities[q], cities[p]) == Pair(u, v);
      }
    }
    forall e | e in links
      ensures exists u, v :: u in cities && v in cities && u != v && e == Pair(u, v)
    {
      var p, q :| 0 <= p < |cities| && p < q < |cities| && e == Pair(cities[p], cities[q]);
      assert cities[p] in cities && cities[q] in cities && cities[p] != cities[q];
    }
  }

  /** Every built edge has distance in [50, 500] and risk in [0.1, 0.9]. */
  lemma BuiltGraphInRange(cities: seq<Node>, draws: seq<seq<Link>>)
    requires Distinct(cities) && DrawTable(cities, draws)
    requires forall i, j :: 0 <= i < j < |cities| ==> ValidLink(draws[i][j])
    ensures forall e :: e in Rows(cities, draws, |cities|) ==> ValidLink(Rows(cities, draws, |cities|)[e])
  {
    var links := Rows(cities, draws, |cities|);
    RowsHave(cities, draws, |cities|);
    RowsOnlyPairs(cities, draws, |cities|);
    forall e | e in links
      ensures ValidLink(links[e])
    {
      var p, q :| 0 <= p < |cities| && p < q < |cities| && e == Pair(cities[p], cities[q]);
      assert links[Pair(cities[p], cities[q])] == draws[p][q];
      assert ValidLink(draws[p][q]);
    }
  }

  /** The six city names are distinct, so the setup builds the complete graph K6. */
  lemma CitiesDistinct()
    ensures Distinct(Cities)
  {
    forall i, j | 0 <= i < |Cities| && 0 <= j < |Cities| && i != j
      ensures Cities[i] != Cities[j]
    {
      assert Cities[i][0] != Cities[j][0] || |Cities[i]| != |Cities[j]|;
    }
  }

  /** The outcome of the open-meteo request: a wind speed, or a failure of
      any kind (timeout, HTTP error, missing key). */
  datatype Reading = Wind(speed: real) | Unavailable

  /** fetch_real_weather_risk: min(wind / 100, 0.3) on a reading, otherwise
      the fallback random.uniform(0.05, 0.25), supplied as a parameter. */
  function WeatherRisk(reading: Reading, fallback: real): (risk: real)
    requires 0.05 <= fallback <= 0.25
    ensures risk <= 0.3
    ensures reading.Unavailable? ==> risk == fallback
    ensures reading.Wind? ==> risk <= reading.speed / 100.0
    ensures reading.Wind? && reading.speed >= 30.0 ==> risk == 0.3
    ensures reading.Wind? && reading.speed >= 0.0 ==> 0.0 <= risk
  {
    match reading
    case Wind(speed) => if speed / 100.0 < 0.3 then speed / 100.0 else 0.3
    case Unavailable => fallback
  }

  /** update_weights as a function of the weights: towards risk exactly when
      the risk is strictly above 0.5; the cost argument plays no part. */
  function Update(w: Weights, risk: real): (w': Weights)
    ensures InBounds(w')
    ensures InBounds(w) && risk > Threshold ==> w'.risk >= w.risk && w'.cost <= w.cost
    ensures InBounds(w) && risk <= Threshold ==> w'.cost >= w.cost && w'.risk <= w.risk
    ensures InBounds(w) ==> w.cost - Step <= w'.cost <= w.cost + Step && w.risk - Step <= w'.risk <= w.risk + Step
  {
    Nudge(w, risk > Threshold, Step)
  }

  /** Forty updates in one direction from (0.5, 0.5) reach exactly
      (0.1, 0.9) (or its mirror), thirty-nine do not, and later ones leave it there. */
  lemma {:induction false} SaturatesAfterForty(towardRisk: bool, n: nat)
    ensures Favoured(Repeat(Start, towardRisk, Step, 39), towardRisk) == 0.89
    ensures n >= 40 ==> Favoured(Repeat(Start, towardRisk, Step, n), towardRisk) == Hi
    ensures n >= 40 ==> Other(Repeat(Start, towardRisk, Step, n), towardRisk) == Lo
  {
    DriftIsProduct(39, Step);
    RepeatFromStart(towardRisk, Step, 39);
    DriftIsProduct(40, Step);
    RepeatFromStart(towardRisk, Step, 40);
    if n >= 40 {
      var at40 := Repeat(Start, towardRisk, Step, 40);
      RepeatSaturated(at40, towardRisk, Step, n - 40);
      RepeatAdd(Start, towardRisk, Step, 40, n - 40);
    }
  }

  /** One history record: the path, its totals and its score. */
  datatype Record = Record(path: seq<Node>, cost: real, risk: real, score: real)

  class AdaptiveRouter {
    var weightCost: real
    var weightRisk: real
    var history: seq<Record>

    function Current(): Weights
      reads this
    {
      Weights(weightCost, weightRisk)
    }

    /** Both weights in [0.1, 0.9] and summing to 1 (exact arithmetic). */
    ghost predicate Valid()
      reads this
    {
      Balanced(Current())
    }

    constructor ()
      ensures weightCost == 0.5 && weightRisk == 0.5 && history == []
      ensures Valid()
    {
      weightCost := 0.5;
      weightRisk := 0.5;
      history := [];
    }

    /** compute_score: the cost plus 100 times the risk, blended by the
        current weights; it reads the weights and changes nothing. */
    function ComputeScore(cost: real, risk: real): (score: real)
      reads this
      ensures score == cost * weightCost + risk * 100.0 * weightRisk
      ensures Valid() && cost <= 100.0 * risk ==> cost <= score <= 100.0 * risk
      ensures Valid() && 100.0 * risk <= cost ==> 100.0 * risk <= score <= cost
    {
      ScoreBetween(Current(), cost, 100.0 * risk);
      Score(Current(), cost, 100.0 * risk)
    }

    method UpdateWeights(cost: real, risk: real)
      modifies this
      ensures Current() == Update(old(Current()), risk)
      ensures history == old(history)
      ensures old(Valid()) ==> Valid()
    {
      if risk > Threshold {
        weightRisk := weightRisk + Step;
        weightCost := weightCost - Step;
      } else {
        weightCost := weightCost + Step;
        weightRisk := weightRisk - Step;
      }
      weightCost := Clamp(weightCost);
      weightRisk := Clamp(weightRisk);
      if old(Valid()) {
        NudgeKeepsBalance(old(Current()), risk > Threshold, Step);
      }
    }

    method Log(path: seq<Node>, cost: real, risk: real, score: real)
      modifies this
      ensures history == old(history) + [Record(path, cost, risk, score)]
      ensures Current() == old(Current())
    {
      history := history + [Record(path, cost, risk, score)];
    }
  }

  /** optimized_decision for a route from `source` to `target`: total the
      path, score with the weights as they were, update, then log. */
  method OptimizedDecision(g: Graph<Link>, router: AdaptiveRouter, source: Node, target: Node, path: seq<Node>)
    returns (score: real)
    requires IsWalk(g.links, path) && |path| >= 1 && path[0] == source && path[|path| - 1] == target
    modifies router
    ensures var cost, risk := PathSum(g.links, path, Distance), PathSum(g.links, path, Risk);
      && score == Score(old(router.Current()), cost, 100.0 * risk)
      && router.Current() == Update(old(router.Current()), risk)
      && router.history == old(router.history) + [Record(path, cost, risk, score)]
    ensures old(router.Valid()) ==> router.Valid()
  {
    var totalCost, totalRisk := PathTotals(g, path);
    score := router.ComputeScore(totalCost, totalRisk);
    router.UpdateWeights(totalCost, totalRisk);
    router.Log(path, totalCost, totalRisk, score);
  }

  /** The direction of each decision in turn: path risk above the threshold. */
  function Directions(g: Graph<Link>, paths: seq<seq<Node>>): (ds: seq<bool>)
    requires forall k :: 0 <= k < |paths| ==> IsWalk(g.links, paths[k])
    ensures |ds| == |paths|
    ensures forall k :: 0 <= k < |paths| ==> ds[k] == (PathSum(g.links, paths[k], Risk) > Threshold)
  {
    if paths == [] then []
    else Directions(g, paths[..|paths| - 1]) + [PathSum(g.links, paths[|paths| - 1], Risk) > Threshold]
  }

  /** run_parallel_batch with its decisions applied one after another in the
      order given. */
  method RunBatch(g: Graph<Link>, router: AdaptiveRouter, paths: seq<seq<Node>>) returns (scores: seq<real>)
    requires forall k :: 0 <= k < |paths| ==> IsWalk(g.links, paths[k]) && |paths[k]| >= 1
    modifies router
    ensures |scores| == |paths|
    ensures router.Current() == Run(old(router.Current()), Directions(g, paths), Step)
    ensures |router.history| == |old(router.history)| + |paths|
    ensures old(router.Valid()) ==> router.Valid()
  {
    scores := [];
    ghost var ds := Directions(g, paths);
    var i := 0;
    while i < |paths|
      invariant 0 <= i <= |paths|
      invariant |scores| == i
      invariant router.Current() == Run(old(router.Current()), ds[..i], Step)
      invariant |router.history| == |old(router.history)| + i
    {
      var p := paths[i];
      ghost var before := router.Current();
      var s := OptimizedDecision(g, router, p[0], p[|p| - 1], p);
      assert router.Current() == Nudge(before, ds[i], Step);
      RunSnoc(old(router.Current()), ds[..i], ds[i], Step);
      assert ds[..i] + [ds[i]] == ds[..i + 1];
      scores := scores + [s];
      i := i + 1;
    }
    assert ds[..i] == ds;
    if old(router.Valid()) {
      RunKeepsBalance(old(router.Current()), ds, Step);
    }
  }

  /** The order in which a batch's updates land changes the final weights:
      from the saturated state (0.1, 0.9) that forty risky decisions reach
      (SaturatesAfterForty), a risky then a safe decision leave
      (0.11, 0.89), while the safe one first leaves (0.1, 0.9). */
  lemma BatchOrderMatters()
    ensures Run(Weights(Lo, Hi), [true, false], Step) == Weights(0.11, 0.89)
    ensures Run(Weights(Lo, Hi), [false, true], Step) == Weights(Lo, Hi)
  {
    var saturated := Weights(Lo, Hi);
    assert [true, false][..1] == [true] && [false, true][..1] == [false];
    assert [true][..0] == [] && [false][..0] == [];
    assert Run(saturated, [true], Step) == Nudge(saturated, true, Step) == saturated;
    assert Run(saturated, [false], Step) == Nudge(saturated, false, Step) == Weights(0.11, 0.89);
    assert Nudge(Weights(0.11, 0.89), true, Step) == saturated;
  }
}
