/** The undirected graphs the scripts build with networkx: nodes are city
    labels, an edge is the unordered pair of its end points, and each edge
    carries one attribute record. A path returned by the shortest-path call is
    taken as a given node sequence whose consecutive pairs are edges. */
module Network {

  type Node = string

  /** An undirected edge is the set of its two end points, so that looking up
      G[u][v] and G[v][u] finds the same attributes. */
  type Edge = set<Node>

  function Pair(u: Node, v: Node): Edge {
    {u, v}
  }

  datatype Graph<L> = Graph(nodes: set<Node>, links: map<Edge, L>)

  /** The attributes `distance` and `risk` that the routing scripts store on each edge. */
  datatype Link = Link(distance: int, risk: real)

  function Distance(l: Link): real { l.distance as real }

  function Risk(l: Link): real { l.risk }

  /** Every consecutive pair of `path` is an edge. */
  predicate IsWalk<L>(links: map<Edge, L>, path: seq<Node>) {
    forall i :: 0 <= i < |path| - 1 ==> Pair(path[i], path[i + 1]) in links
  }

  lemma WalkPrefix<L>(links: map<Edge, L>, path: seq<Node>, n: nat)
    requires IsWalk(links, path) && n <= |path|
    ensures IsWalk(links, path[..n])
  {
    assert forall i :: 0 <= i < n ==> path[..n][i] == path[i];
  }

  /** The weight of the last edge of a path of at least two nodes. */
  function LastEdge<L>(links: map<Edge, L>, path: seq<Node>): L
    requires IsWalk(links, path) && |path| >= 2
  {
    links[Pair(path[|path| - 2], path[|path| - 1])]
  }

  /** The sum of `weight` over the edges between consecutive nodes of `path`;
      a path of one node has no edges and sums to 0. */
  function PathSum<L>(links: map<Edge, L>, path: seq<Node>, weight: L -> real): real
    requires IsWalk(links, path)
    decreases |path|
  {
    if |path| <= 1 then 0.0
    else
      WalkPrefix(links, path, |path| - 1);
      PathSum(links, path[..|path| - 1], weight) + weight(LastEdge(links, path))
  }

  /** Summing edge by edge from the front: the prefix ending at node i+1 adds
      the edge (path[i], path[i+1]) to the prefix ending at node i. */
  lemma PathSumStep<L>(links: map<Edge, L>, path: seq<Node>, i: nat, weight: L -> real)
    requires IsWalk(links, path) && i + 1 < |path|
    ensures IsWalk(links, path[..i + 1]) && IsWalk(links, path[..i + 2])
    ensures PathSum(links, path[..i + 2], weight)
         == PathSum(links, path[..i + 1], weight) + weight(links[Pair(path[i], path[i + 1])])
  {
    WalkPrefix(links, path, i + 1);
    WalkPrefix(links, path, i + 2);
    assert path[..i + 2][..i + 1] == path[..i + 1];
  }

  /** An edge-wise bound between two weights carries over to the path sums. */
  lemma {:induction false} PathSumMonotone<L>(links: map<Edge, L>, path: seq<Node>, lower: L -> real, upper: L -> real)
    requires IsWalk(links, path)
    requires forall e :: e in links ==> lower(links[e]) <= upper(links[e])
    ensures PathSum(links, path, lower) <= PathSum(links, path, upper)
  {
    if |path| > 1 {
      WalkPrefix(links, path, |path| - 1);
      PathSumMonotone(links, path[..|path| - 1], lower, upper);
    }
  }

  /** A strict edge-wise bound gives a strict bound on every path with an edge. */
  lemma {:induction false} PathSumStrict<L>(links: map<Edge, L>, path: seq<Node>, lower: L -> real, upper: L -> real)
    requires IsWalk(links, path) && |path| >= 2
    requires forall e :: e in links ==> lower(links[e]) < upper(links[e])
    ensures PathSum(links, path, lower) < PathSum(links, path, upper)
  {
    WalkPrefix(links, path, |path| - 1);
    PathSumMonotone(links, path[..|path| - 1], lower, upper);
  }

  /** Non-negative edge weights give a non-negative path sum. */
  lemma {:induction false} PathSumNonnegative<L>(links: map<Edge, L>, path: seq<Node>, weight: L -> real)
    requires IsWalk(links, path)
    requires forall e :: e in links ==> 0.0 <= weight(links[e])
    ensures 0.0 <= PathSum(links, path, weight)
  {
    if |path| > 1 {
      WalkPrefix(links, path, |path| - 1);
      PathSumNonnegative(links, path[..|path| - 1], weight);
    }
  }

  /** Scaling every edge weight by k scales the path sum by k. */
  lemma {:induction false} PathSumScale<L>(links: map<Edge, L>, path: seq<Node>, weight: L -> real, scaled: L -> real, k: real)
    requires IsWalk(links, path)
    requires forall e :: e in links ==> scaled(links[e]) == k * weight(links[e])
    ensures PathSum(links, path, scaled) == k * PathSum(links, path, weight)
  {
    if |path| > 1 {
      WalkPrefix(links, path, |path| - 1);
      PathSumScale(links, path[..|path| - 1], weight, scaled, k);
    }
  }

  /** The accumulation loop of the routing decisions: walk the consecutive
      node pairs of the path and add up each edge's distance and risk. */
  method PathTotals(g: Graph<Link>, path: seq<Node>) returns (totalCost: real, totalRisk: real)
    requires IsWalk(g.links, path)
    ensures totalCost == PathSum(g.links, path, Distance)
    ensures totalRisk == PathSum(g.links, path, Risk)
  {
    totalCost, totalRisk := 0.0, 0.0;
    if |path| == 0 {
      return;
    }
    var i := 0;
    while i < |path| - 1
      invariant 0 <= i <= |path| - 1
      invariant IsWalk(g.links, path[..i + 1])
      invariant totalCost == PathSum(g.links, path[..i + 1], Distance)
      invariant totalRisk == PathSum(g.links, path[..i + 1], Risk)
    {
      var edge := g.links[Pair(path[i], path[i + 1])];
      PathSumStep(g.links, path, i, Distance);
      PathSumStep(g.links, path, i, Risk);
      totalCost := totalCost + edge.distance as real;
      totalRisk := totalRisk + edge.risk;
      i := i + 1;
    }
    assert path[..i + 1] == path;
  }

  /** One call of `add_edge(a, b, attrs)`: a and b are distinct end points. */
  datatype Draw<L> = Draw(a: Node, b: Node, attrs: L)

  /** The edge map after `add_edge` for each draw in order: a repeated pair
      keeps the attributes of its last draw. */
  function Added<L>(links: map<Edge, L>, draws: seq<Draw<L>>): map<Edge, L> {
    if draws == [] then links
    else
      var d := draws[|draws| - 1];
      Added(links, draws[..|draws| - 1])[Pair(d.a, d.b) := d.attrs]
  }

  /** The edges are those of the drawn pairs, and every edge carries the
      attributes of some draw of its pair. */
  lemma {:induction false} AddedEdges<L>(draws: seq<Draw<L>>)
    ensures Added(map[], draws).Keys == set i | 0 <= i < |draws| :: Pair(draws[i].a, draws[i].b)
    ensures forall e :: e in Added(map[], draws) ==>
      exists i :: 0 <= i < |draws| && e == Pair(draws[i].a, draws[i].b) && Added(map[], draws)[e] == draws[i].attrs
  {
    if draws != [] {
      var n := |draws| - 1;
      AddedEdges(draws[..n]);
      assert forall i :: 0 <= i < n ==> draws[..n][i] == draws[i];
      assert (set i | 0 <= i < |draws| :: Pair(draws[i].a, draws[i].b))
          == (set i | 0 <= i < n :: Pair(draws[..n][i].a, draws[..n][i].b)) + {Pair(draws[n].a, draws[n].b)};
    }
  }
}
