/** The day-3 routing script: a random logistics graph whose edges carry a
    distance and a weather + traffic risk, and an AdaptiveRouter that scores
    each decision with its current weights, then moves 0.03 of weight towards
    whichever of total risk and total cost dominated, then logs. */
module AdaptiveRouting {
  import opened Network
  import opened WeightControl

  /** The nudge size of update_weights. */
  const Step: real := 0.03

  /** The random values drawn for one route of build_logistics_graph. */
  datatype RouteDraw = RouteDraw(a: Node, b: Node, distance: int, weather: real, traffic: real)

  /** What random.sample, random.randint(50, 400) and the two random.uniform
      calls can return. */
  predicate ValidDraw(cities: seq<Node>, d: RouteDraw) {
    && d.a in cities && d.b in cities && d.a != d.b
    && 50 <= d.distance <= 400
    && 0.05 <= d.weather <= 0.25
    && 0.05 <= d.traffic <= 0.20
  }

  /** The risk of a generated edge: weather risk plus traffic risk. */
  function EdgeRisk(weather: real, traffic: real): (risk: real)
    requires 0.05 <= weather <= 0.25 && 0.05 <= traffic <= 0.20
    ensures 0.10 <= risk <= 0.45
    ensures risk >= weather && risk >= traffic
  {
    weather + traffic
  }

  /** The attribute ranges of every generated edge. */
  predicate Generated(l: Link) {
    50 <= l.distance <= 400 && 0.10 <= l.risk <= 0.45
  }

  function ToLink(d: RouteDraw): Draw<Link>
    requires 0.05 <= d.weather <= 0.25 && 0.05 <= d.traffic <= 0.20
  {
    Draw(d.a, d.b, Link(d.distance, EdgeRisk(d.weather, d.traffic)))
  }

  /** The add_edge calls the draws stand for, in order. */
  function Drawn(cities: seq<Node>, draws: seq<RouteDraw>): seq<Draw<Link>>
    requires forall i :: 0 <= i < |draws| ==> ValidDraw(cities, draws[i])
  {
    seq(|draws|, i requires 0 <= i < |draws| && ValidDraw(cities, draws[i]) => ToLink(draws[i]))
  }

  /** build_logistics_graph: one node per city, then one add_edge per draw; a
      pair drawn twice keeps its last attributes. */
  method BuildLogisticsGraph(cities: seq<Node>, draws: seq<RouteDraw>) returns (g: Graph<Link>)
    requires forall i :: 0 <= i < |draws| ==> ValidDraw(cities, draws[i])
    ensures g.nodes == set c | c in cities
    ensures g.links == Added(map[], Drawn(cities, draws))
    ensures forall e :: e in g.links ==> Generated(g.links[e]) && e <= g.nodes
  {
    var nodes := set c | c in cities;
    var links: map<Edge, Link> := map[];
    ghost var drawn := Drawn(cities, draws);
    var i := 0;
    while i < |draws|
      invariant 0 <= i <= |draws|
      invariant links == Added(map[], drawn[..i])
      invariant forall e :: e in links ==> Generated(links[e]) && e <= nodes
    {
      var d := draws[i];
      var risk := d.weather + d.traffic;
      assert drawn[..i + 1][..i] == drawn[..i];
      links := links[Pair(d.a, d.b) := Link(d.distance, risk)];
      i := i + 1;
    }
    assert drawn[..i] == drawn;
    g := Graph(nodes, links);
  }

  /** Every path through a generated graph has total risk below total
      distance (each edge adds at most 0.45 risk and at least 50 distance),
      or both are 0 when the path has no edge. */
  lemma GeneratedRiskBelowCost(g: Graph<Link>, path: seq<Node>)
    requires IsWalk(g.links, path)
    requires forall e :: e in g.links ==> Generated(g.links[e])
    ensures |path| >= 2 ==> PathSum(g.links, path, Risk) < PathSum(g.links, path, Distance)
    ensures |path| <= 1 ==> PathSum(g.links, path, Risk) == 0.0 == PathSum(g.links, path, Distance)
  {
    if |path| >= 2 {
      PathSumStrict(g.links, path, Risk, Distance);
    }
  }

  /** update_weights as a function of the weights: towards risk exactly when
      total risk is strictly above total cost (a tie goes to cost). */
  function Update(w: Weights, totalCost: real, totalRisk: real): (w': Weights)
    ensures InBounds(w')
    ensures InBounds(w) && totalRisk > totalCost ==> w'.risk >= w.risk && w'.cost <= w.cost
    ensures InBounds(w) && totalRisk <= totalCost ==> w'.cost >= w.cost && w'.risk <= w.risk
    ensures InBounds(w) ==> w.cost - Step <= w'.cost <= w.cost + Step && w.risk - Step <= w'.risk <= w.risk + Step
  {
    Nudge(w, totalRisk > totalCost, Step)
  }

  /** Fourteen risk-dominant updates from (0.5, 0.5) reach exactly
      (0.1, 0.9), thirteen do not, and later ones leave it there; the same
      holds mirrored for cost-dominant updates. */
  lemma {:induction false} SaturatesAfterFourteen(towardRisk: bool, n: nat)
    ensures Favoured(Repeat(Start, towardRisk, Step, 13), towardRisk) == 0.89
    ensures n >= 14 ==> Favoured(Repeat(Start, towardRisk, Step, n), towardRisk) == Hi
    ensures n >= 14 ==> Other(Repeat(Start, towardRisk, Step, n), towardRisk) == Lo
  {
    DriftIsProduct(13, Step);
    RepeatFromStart(towardRisk, Step, 13);
    if n >= 14 {
      var at14 := Repeat(Start, towardRisk, Step, 14);
      assert Favoured(at14, towardRisk) == Hi && Other(at14, towardRisk) == Lo;
      RepeatSaturated(at14, towardRisk, Step, n - 14);
      RepeatAdd(Start, towardRisk, Step, 14, n - 14);
    }
  }

  /** One log entry: the route, its totals, its score and the weights after the update. */
  datatype LogEntry = LogEntry(route: seq<Node>, cost: real, risk: real, score: real, weightCost: real, weightRisk: real)

  class AdaptiveRouter {
    var weightCost: real
    var weightRisk: real
    var logs: seq<LogEntry>

    function Current(): Weights
      reads this
    {
      Weights(weightCost, weightRisk)
    }

    /** Both weights in [0.1, 0.9] and summing to 1 (exact arithmetic). */
    ghost predicate Valid()
      reads this
    {
      Balanced(Current())
    }

    constructor ()
      ensures weightCost == 0.5 && weightRisk == 0.5 && logs == []
      ensures Valid()
    {
      weightCost := 0.5;
      weightRisk := 0.5;
      logs := [];
    }

    /** compute_score: a blend of the totals by the current weights; it reads
        the weights and changes nothing. */
    function ComputeScore(totalCost: real, totalRisk: real): (score: real)
      reads this
      ensures score == weightCost * totalCost + weightRisk * totalRisk
      ensures Valid() && totalCost <= totalRisk ==> totalCost <= score <= totalRisk
      ensures Valid() && totalRisk <= totalCost ==> totalRisk <= score <= totalCost
    {
      ScoreBetween(Current(), totalCost, totalRisk);
      Score(Current(), totalCost, totalRisk)
    }

    method UpdateWeights(totalCost: real, totalRisk: real)
      modifies this
      ensures Current() == Update(old(Current()), totalCost, totalRisk)
      ensures logs == old(logs)
      ensures old(Valid()) ==> Valid()
    {
      if totalRisk > totalCost {
        weightRisk := weightRisk + Step;
        weightCost := weightCost - Step;
      } else {
        weightCost := weightCost + Step;
        weightRisk := weightRisk - Step;
      }
      weightCost := Clamp(weightCost);
      weightRisk := Clamp(weightRisk);
      if old(Valid()) {
        NudgeKeepsBalance(old(Current()), totalRisk > totalCost, Step);
      }
    }

    method Log(route: seq<Node>, cost: real, risk: real, score: real)
      modifies this
      ensures logs == old(logs) + [LogEntry(route, cost, risk, score, weightCost, weightRisk)]
      ensures Current() == old(Current())
    {
      logs := logs + [LogEntry(route, cost, risk, score, weightCost, weightRisk)];
    }
  }

  /** optimizer_agent for a route from `source` to `target`: total the path,
      score with the weights as they were, update, then log the totals, the
      score and the weights as they are after the update. */
  method OptimizerAgent(g: Graph<Link>, router: AdaptiveRouter, source: Node, target: Node, path: seq<Node>)
    returns (score: real)
    requires IsWalk(g.links, path) && |path| >= 1 && path[0] == source && path[|path| - 1] == target
    modifies router
    ensures var cost, risk := PathSum(g.links, path, Distance), PathSum(g.links, path, Risk);
      && score == Score(old(router.Current()), cost, risk)
      && router.Current() == Update(old(router.Current()), cost, risk)
      && router.logs == old(router.logs) + [LogEntry(path, cost, risk, score, router.weightCost, router.weightRisk)]
    ensures old(router.Valid()) ==> router.Valid()
  {
    var totalCost, totalRisk := PathTotals(g, path);
    score := router.ComputeScore(totalCost, totalRisk);
    router.UpdateWeights(totalCost, totalRisk);
    router.Log(path, totalCost, totalRisk, score);
  }

  /** Whether a decision on `path` moves weight towards risk. */
  function RiskDominant(g: Graph<Link>, path: seq<Node>): bool
    requires IsWalk(g.links, path)
  {
    PathSum(g.links, path, Risk) > PathSum(g.links, path, Distance)
  }

  /** The direction of each decision in turn. */
  function Directions(g: Graph<Link>, paths: seq<seq<Node>>): (ds: seq<bool>)
    requires forall k :: 0 <= k < |paths| ==> IsWalk(g.links, paths[k])
    ensures |ds| == |paths|
    ensures forall k :: 0 <= k < |paths| ==> ds[k] == RiskDominant(g, paths[k])
  {
    if paths == [] then []
    else Directions(g, paths[..|paths| - 1]) + [RiskDominant(g, paths[|paths| - 1])]
  }

  /** The decision loop of the script: one optimizer_agent call per route, in order. */
  method RunDecisions(g: Graph<Link>, router: AdaptiveRouter, paths: seq<seq<Node>>) returns (scores: seq<real>)
    requires forall k :: 0 <= k < |paths| ==> IsWalk(g.links, paths[k]) && |paths[k]| >= 1
    modifies router
    ensures |scores| == |paths|
    ensures router.Current() == Run(old(router.Current()), Directions(g, paths), Step)
    ensures |router.logs| == |old(router.logs)| + |paths|
    ensures old(router.Valid()) ==> router.Valid()
  {
    scores := [];
    ghost var ds := Directions(g, paths);
    var i := 0;
    while i < |paths|
      invariant 0 <= i <= |paths|
      invariant |scores| == i
      invariant router.Current() == Run(old(router.Current()), ds[..i], Step)
      invariant |router.logs| == |old(router.logs)| + i
    {
      var p := paths[i];
      ghost var before := router.Current();
      var s := OptimizerAgent(g, router, p[0], p[|p| - 1], p);
      assert router.Current() == Nudge(before, ds[i], Step);
      RunSnoc(old(router.Current()), ds[..i], ds[i], Step);
      assert ds[..i] + [ds[i]] == ds[..i + 1];
      scores := scores + [s];
      i := i + 1;
    }
    assert ds[..i] == ds;
    if old(router.Valid()) {
      RunKeepsBalance(old(router.Current()), ds, Step);
    }
  }

  /** On a generated graph every decision goes to cost, so from (0.5, 0.5)
      fourteen or more decisions leave the weights at exactly (0.9, 0.1). */
  lemma GeneratedDecisionsSaturate(g: Graph<Link>, paths: seq<seq<Node>>)
    requires forall e :: e in g.links ==> Generated(g.links[e])
    requires forall k :: 0 <= k < |paths| ==> IsWalk(g.links, paths[k])
    requires |paths| >= 14
    ensures Run(Start, Directions(g, paths), Step) == Weights(Hi, Lo)
  {
    var ds := Directions(g, paths);
    forall k | 0 <= k < |ds|
      ensures ds[k] == false
    {
      GeneratedRiskBelowCost(g, paths[k]);
    }
    RunUniform(Start, ds, false, Step);
    SaturatesAfterFourteen(false, |ds|);
  }
}
