/** The day-2 script: a random logistics network of routes with a distance,
    a hybrid risk engine that turns weather and traffic delays into a
    penalty, a pass that stores cost = distance * (1 + penalty) on every
    route, and the total cost of a chosen path. */
module NexusCore {
  import opened Network

  datatype Option<T> = None | Some(value: T)

  /** A route's attributes: its distance, and its cost once the risk model has run. */
  datatype Route = Route(distance: int, cost: Option<real>)

  function DistanceOf(r: Route): real { r.distance as real }

  function CostOf(r: Route): real {
    match r.cost
    case Some(c) => c
    case None => 0.0
  }

  /** The random values drawn for one route: random.sample and random.randint(50, 500). */
  datatype RoadDraw = RoadDraw(a: Node, b: Node, distance: int)

  predicate ValidDraw(cities: seq<Node>, d: RoadDraw) {
    d.a in cities && d.b in cities && d.a != d.b && 50 <= d.distance <= 500
  }

  /** The two draws of risk_penalty: random.uniform(0, 0.3) and random.uniform(0, 0.2). */
  datatype Delays = Delays(weather: real, traffic: real)

  predicate ValidDelays(d: Delays) {
    0.0 <= d.weather <= 0.3 && 0.0 <= d.traffic <= 0.2
  }

  /** risk_penalty: weather delay plus traffic delay. */
  function RiskPenalty(d: Delays): (penalty: real)
    requires ValidDelays(d)
    ensures 0.0 <= penalty <= 0.5
    ensures penalty >= d.weather && penalty >= d.traffic
  {
    d.weather + d.traffic
  }

  /** The hybrid cost of a route: its distance inflated by the penalty. */
  function HybridCost(distance: int, penalty: real): (cost: real)
    requires 0.0 <= penalty <= 0.5
    ensures 0 <= distance ==> distance as real <= cost <= 1.5 * distance as real
    ensures cost - distance as real == distance as real * penalty
  {
    InflationBounds(distance, penalty);
    distance as real * (1.0 + penalty)
  }

  /** Inflating by a penalty in [0, 0.5] adds between nothing and half the distance. */
  lemma InflationBounds(distance: int, penalty: real)
    requires 0.0 <= penalty <= 0.5
    ensures distance as real * (1.0 + penalty) - distance as real == distance as real * penalty
    ensures 0 <= distance ==>
      distance as real <= distance as real * (1.0 + penalty) <= 1.5 * distance as real
  {
    var d := distance as real;
    assert d * (1.0 + penalty) == d + d * penalty;
    if 0 <= distance {
      assert 0.0 <= d;
      assert 0.0 <= d * penalty;
      assert 0.0 <= d * (0.5 - penalty);
      assert d * (0.5 - penalty) == 0.5 * d - d * penalty;
    }
  }

  /** A distance drawn from [50, 500] gets a cost in [50, 750]. */
  lemma CostRange(distance: int, penalty: real)
    requires 50 <= distance <= 500 && 0.0 <= penalty <= 0.5
    ensures 50.0 <= HybridCost(distance, penalty) <= 750.0
  {
    var cost := HybridCost(distance, penalty);
    assert distance as real <= cost <= 1.5 * distance as real;
  }

  /** The route with its cost attribute set from its delays. */
  function WithCost(r: Route, d: Delays): Route
    requires ValidDelays(d)
  {
    r.(cost := Some(HybridCost(r.distance, RiskPenalty(d))))
  }

  /** Every route of `routes` after the risk pass: the same edges with the
      same distances, each now carrying a cost. */
  function WithCosts(routes: map<Edge, Route>, delays: map<Edge, Delays>): (r: map<Edge, Route>)
    requires forall e :: e in routes ==> e in delays && ValidDelays(delays[e])
    ensures r.Keys == routes.Keys
    ensures forall e :: e in r ==> r[e].distance == routes[e].distance && r[e].cost.Some?
    ensures forall e :: e in r && 0 <= routes[e].distance ==>
      DistanceOf(r[e]) <= CostOf(r[e]) <= 1.5 * DistanceOf(r[e])
  {
    map e | e in routes :: WithCost(routes[e], delays[e])
  }

  /** Every route has a cost, at least its distance. */
  predicate Costed(routes: map<Edge, Route>) {
    forall e :: e in routes ==> routes[e].cost.Some? && DistanceOf(routes[e]) <= CostOf(routes[e])
  }

  function Drawn(draws: seq<RoadDraw>): seq<Draw<Route>> {
    seq(|draws|, i requires 0 <= i < |draws| => Draw(draws[i].a, draws[i].b, Route(draws[i].distance, None)))
  }

  /** The network graph G, which the risk pass updates in place. */
  class LogisticsNetwork {
    var nodes: set<Node>
    var routes: map<Edge, Route>

    /** The network setup: one node per city, then one add_edge per draw; a
        pair drawn twice keeps its last distance. */
    constructor (cities: seq<Node>, draws: seq<RoadDraw>)
      requires forall i :: 0 <= i < |draws| ==> ValidDraw(cities, draws[i])
      ensures nodes == set c | c in cities
      ensures routes == Added(map[], Drawn(draws))
      ensures forall e :: e in routes ==> 50 <= routes[e].distance <= 500 && routes[e].cost == None
    {
      var links: map<Edge, Route> := map[];
      ghost var drawn := Drawn(draws);
      var i := 0;
      while i < |draws|
        invariant 0 <= i <= |draws|
        invariant links == Added(map[], drawn[..i])
        invariant forall e :: e in links ==> 50 <= links[e].distance <= 500 && links[e].cost == None
      {
        var d := draws[i];
        assert drawn[..i + 1][..i] == drawn[..i];
        links := links[Pair(d.a, d.b) := Route(d.distance, None)];
        i := i + 1;
      }
      assert drawn[..i] == drawn;
      nodes := set c | c in cities;
      routes := links;
    }

    /** The risk pass: for every route, draw a penalty and store
        cost = distance * (1 + penalty); nothing else changes. */
    method ApplyRiskModel(delays: map<Edge, Delays>)
      requires forall e :: e in routes ==> e in delays && ValidDelays(delays[e])
      modifies this
      ensures routes == WithCosts(old(routes), delays)
      ensures nodes == old(nodes)
    {
      ghost var before := routes;
      var pending := routes.Keys;
      while pending != {}
        invariant pending <= routes.Keys == before.Keys
        invariant nodes == old(nodes)
        invariant forall e :: e in routes ==>
          routes[e] == if e in pending then before[e] else WithCost(before[e], delays[e])
        decreases pending
      {
        var e :| e in pending;
        var baseDistance := routes[e].distance;
        var penalty := RiskPenalty(delays[e]);
        assert routes[e] == before[e];
        assert HybridCost(baseDistance, penalty) == baseDistance as real * (1.0 + penalty);
        routes := routes[e := routes[e].(cost := Some(baseDistance as real * (1.0 + penalty)))];
        assert routes[e] == WithCost(before[e], delays[e]);
        pending := pending - {e};
      }
    }

    /** optimizer_agent's total_cost: the sum of the cost of every edge
        between consecutive nodes of the chosen path. */
    function TotalCost(path: seq<Node>): (total: real)
      reads this
      requires Costed(routes) && IsWalk(routes, path)
      ensures |path| <= 1 ==> total == 0.0
      ensures PathSum(routes, path, DistanceOf) <= total
    {
      PathSumMonotone(routes, path, DistanceOf, CostOf);
      PathSum(routes, path, CostOf)
    }
  }

  /** 1.5 times the distance: the largest cost the risk pass can store. */
  function Inflated(r: Route): real {
    1.5 * DistanceOf(r)
  }

  /** The risk pass keeps every edge and gives each a cost of at least its
      distance, so a walk stays a walk and every route is costed. */
  lemma RiskPassKeepsWalks(routes: map<Edge, Route>, delays: map<Edge, Delays>, path: seq<Node>)
    requires forall e :: e in routes ==> e in delays && ValidDelays(delays[e])
    requires forall e :: e in routes ==> 0 <= routes[e].distance
    requires IsWalk(routes, path)
    ensures Costed(WithCosts(routes, delays))
    ensures IsWalk(WithCosts(routes, delays), path)
    ensures forall e :: e in WithCosts(routes, delays) ==>
      CostOf(WithCosts(routes, delays)[e]) <= Inflated(WithCosts(routes, delays)[e])
  {
    var costed := WithCosts(routes, delays);
    assert costed.Keys == routes.Keys;
  }

  /** After the risk pass a path's total cost is at least its total distance
      and at most 1.5 times it. */
  lemma CostBounds(routes: map<Edge, Route>, delays: map<Edge, Delays>, path: seq<Node>)
    requires forall e :: e in routes ==> e in delays && ValidDelays(delays[e])
    requires forall e :: e in routes ==> 0 <= routes[e].distance
    requires IsWalk(routes, path)
    ensures Costed(WithCosts(routes, delays))
    ensures IsWalk(WithCosts(routes, delays), path)
    ensures PathSum(WithCosts(routes, delays), path, DistanceOf) <= PathSum(WithCosts(routes, delays), path, CostOf)
    ensures PathSum(WithCosts(routes, delays), path, CostOf) <= 1.5 * PathSum(WithCosts(routes, delays), path, DistanceOf)
  {
    RiskPassKeepsWalks(routes, delays, path);
    var costed := WithCosts(routes, delays);
    PathSumMonotone(costed, path, DistanceOf, CostOf);
    PathSumMonotone(costed, path, CostOf, Inflated);
    PathSumScale(costed, path, DistanceOf, Inflated, 1.5);
  }
}
