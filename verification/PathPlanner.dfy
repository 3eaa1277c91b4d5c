/** The world graph that routes are planned on, and what a shortest route is. */
module WorldGraph {
  type NodeId = string

  // A JavaScript number: distances may be NaN or infinite, and are then rejected.
  datatype Distance = Finite(value: real) | NonFinite

  // The `locked` flag of a world edge is never read by the planner.
  datatype Edge = Edge(fromNode: NodeId, toNode: NodeId, distance: Distance, bidirectional: bool)

  predicate ValidDistance(e: Edge) {
    e.distance.Finite? && e.distance.value >= 0.0
  }

  predicate AllValid(edges: seq<Edge>) {
    forall i :: 0 <= i < |edges| ==> ValidDistance(edges[i])
  }

  // One edge lets a traveller step from u to v at cost d.
  predicate Permits(e: Edge, u: NodeId, v: NodeId, d: real) {
    && e.distance == Finite(d)
    && ((e.fromNode == u && e.toNode == v) || (e.bidirectional && e.toNode == u && e.fromNode == v))
  }

  ghost predicate Arc(edges: seq<Edge>, u: NodeId, v: NodeId, d: real) {
    exists i :: 0 <= i < |edges| && Permits(edges[i], u, v, d)
  }

  predicate Known(edges: seq<Edge>, n: NodeId) {
    exists i :: 0 <= i < |edges| && (edges[i].fromNode == n || edges[i].toNode == n)
  }

  // A walk names the nodes passed and the cost of every leg between them.
  ghost predicate IsWalk(edges: seq<Edge>, nodes: seq<NodeId>, legs: seq<real>) {
    && |nodes| == |legs| + 1
    && forall i :: 0 <= i < |legs| ==> Arc(edges, nodes[i], nodes[i + 1], legs[i])
  }

  ghost predicate WalkBetween(edges: seq<Edge>, u: NodeId, v: NodeId, nodes: seq<NodeId>, legs: seq<real>) {
    IsWalk(edges, nodes, legs) && nodes[0] == u && nodes[|nodes| - 1] == v
  }

  ghost function Total(legs: seq<real>): real {
    if legs == [] then 0.0 else Total(legs[..|legs| - 1]) + legs[|legs| - 1]
  }

  // No walk between the same two nodes, over any edges, is cheaper than cost.
  ghost predicate Cheapest(edges: seq<Edge>, u: NodeId, v: NodeId, cost: real) {
    forall nodes, legs :: WalkBetween(edges, u, v, nodes, legs) ==> cost <= Total(legs)
  }

  ghost predicate ShortestRoute(edges: seq<Edge>, u: NodeId, v: NodeId, nodes: seq<NodeId>) {
    exists legs :: WalkBetween(edges, u, v, nodes, legs) && Cheapest(edges, u, v, Total(legs))
  }

  ghost predicate Reachable(edges: seq<Edge>, u: NodeId, v: NodeId) {
    exists nodes, legs :: WalkBetween(edges, u, v, nodes, legs)
  }

  ghost predicate NoRepeats(nodes: seq<NodeId>) {
    forall i, j :: 0 <= i < j < |nodes| ==> nodes[i] != nodes[j]
  }

  lemma {:induction false} TotalPrepend(d: real, legs: seq<real>)
    ensures Total([d] + legs) == d + Total(legs)
  {
    if legs == [] {
      assert Total([d]) == Total([]) + d by { assert [d][..0] == []; }
      assert [d] + legs == [d];
    } else {
      TotalPrepend(d, legs[..|legs| - 1]);
      assert ([d] + legs)[..|legs|] == [d] + legs[..|legs| - 1];
    }
  }

  lemma {:induction false} TotalNonNegative(edges: seq<Edge>, nodes: seq<NodeId>, legs: seq<real>)
    requires AllValid(edges) && IsWalk(edges, nodes, legs)
    ensures Total(legs) >= 0.0
  {
    if legs != [] {
      TotalNonNegative(edges, nodes[..|nodes| - 1], legs[..|legs| - 1]);
      assert Arc(edges, nodes[|legs| - 1], nodes[|legs|], legs[|legs| - 1]);
    }
  }
}

/** `planRoute`: Dijkstra's algorithm over mutable maps, then reconstruction from `previous`. */
module PathPlanner {
  import opened Wrappers
  import opened WorldGraph

  datatype Hop = Hop(node: NodeId, distance: real)
  type Graph = map<NodeId, seq<Hop>>

  datatype Plan =
    | Route(nodes: seq<NodeId>)
    | NoRoute
    | InvalidDistance(edge: nat)
    | UnknownFrom
    | UnknownTo

  // ---- Adjacency -------------------------------------------------------------------------

  ghost predicate Adjacent(graph: Graph, edges: seq<Edge>) {
    && (forall u :: u in graph ==> forall h :: h in graph[u] ==> Arc(edges, u, h.node, h.distance))
    && (forall u, v, d :: Arc(edges, u, v, d) ==> u in graph && Hop(v, d) in graph[u])
  }

  function AddHop(graph: Graph, u: NodeId, h: Hop): Graph {
    graph[u := (if u in graph then graph[u] else []) + [h]]
  }

  lemma AdjacentStep(before: Graph, after: Graph, edges: seq<Edge>, e: Edge)
    requires Adjacent(before, edges) && e.distance.Finite?
    requires
      var once := AddHop(before, e.fromNode, Hop(e.toNode, e.distance.value));
      after == if e.bidirectional then AddHop(once, e.toNode, Hop(e.fromNode, e.distance.value)) else once
    ensures Adjacent(after, edges + [e])
  {
    var more := edges + [e];
    assert more[|edges|] == e;
    forall u, v, d | Arc(edges, u, v, d)
      ensures Arc(more, u, v, d)
    {
      var i :| 0 <= i < |edges| && Permits(edges[i], u, v, d);
      assert Permits(more[i], u, v, d);
    }
    forall u, h | u in after && h in after[u]
      ensures Arc(more, u, h.node, h.distance)
    {
      if u in before && h in before[u] {
        assert Arc(edges, u, h.node, h.distance);
      } else {
        assert Permits(more[|edges|], u, h.node, h.distance);
      }
    }
    forall u, v, d | Arc(more, u, v, d)
      ensures u in after && Hop(v, d) in after[u]
    {
      var i :| 0 <= i < |more| && Permits(more[i], u, v, d);
      if i < |edges| {
        assert Permits(edges[i], u, v, d);
        assert Arc(edges, u, v, d);
      }
    }
  }

  ghost predicate KeysOf(order: seq<NodeId>, graph: Graph) {
    NoRepeats(order) && forall n :: n in order <==> n in graph
  }

  /** Pushes one hop, appending the node to the map's key order when it is new. */
  method PushHop(graph0: Graph, order0: seq<NodeId>, u: NodeId, h: Hop) returns (graph: Graph, order: seq<NodeId>)
    requires KeysOf(order0, graph0)
    ensures KeysOf(order, graph) && graph == AddHop(graph0, u, h)
  {
    order := if u in graph0 then order0 else order0 + [u];
    graph := graph0[u := (if u in graph0 then graph0[u] else []) + [h]];
  }

  method BuildGraph(edges: seq<Edge>)
    returns (graph: Graph, order: seq<NodeId>, known: set<NodeId>, bad: Option<nat>)
    ensures bad.None? <==> AllValid(edges)
    ensures bad.Some? ==>
      bad.value < |edges| && !ValidDistance(edges[bad.value]) && AllValid(edges[..bad.value])
    ensures bad.None? ==> Adjacent(graph, edges) && (forall n :: n in known <==> Known(edges, n))
    ensures bad.None? ==> graph.Keys <= known && KeysOf(order, graph)
  {
    hide Adjacent, KeysOf, Known;
    graph, order, known, bad := map[], [], {}, None;
    NothingAdjacent();
    for i := 0 to |edges|
      invariant AllValid(edges[..i]) && Adjacent(graph, edges[..i])
      invariant forall n :: n in known <==> Known(edges[..i], n)
      invariant graph.Keys <= known && KeysOf(order, graph)
    {
      var e := edges[i];
      if !ValidDistance(e) {
        bad := Some(i);
        return;
      }
      ghost var before := graph;
      known := known + {e.fromNode, e.toNode};
      graph, order := PushHop(graph, order, e.fromNode, Hop(e.toNode, e.distance.value));
      if e.bidirectional {
        graph, order := PushHop(graph, order, e.toNode, Hop(e.fromNode, e.distance.value));
      }
      AdjacentStep(before, graph, edges[..i], e);
      KnownStep(edges[..i], e);
      assert edges[..i + 1] == edges[..i] + [e];
    }
    assert edges[..|edges|] == edges;
  }

  lemma NothingAdjacent()
    ensures Adjacent(map[], []) && KeysOf([], map[]) && forall n :: !Known([], n)
  {
  }

  lemma KnownStep(edges: seq<Edge>, e: Edge)
    ensures forall n :: Known(edges + [e], n) <==> Known(edges, n) || n == e.fromNode || n == e.toNode
  {
    var more := edges + [e];
    forall n
      ensures Known(more, n) <==> Known(edges, n) || n == e.fromNode || n == e.toNode
    {
      if Known(edges, n) {
        var i :| 0 <= i < |edges| && (edges[i].fromNode == n || edges[i].toNode == n);
        assert more[i].fromNode == n || more[i].toNode == n;
      }
      assert more[|edges|] == e;
    }
  }

  // ---- The search ------------------------------------------------------------------------

  // None plays the part of Infinity.
  type Distances = map<NodeId, Option<real>>

  predicate FiniteAt(dist: Distances, n: NodeId) {
    n in dist && dist[n].Some?
  }

  // What holds of the maps between any two rounds. `rank` is the round each node was visited in.
  ghost predicate Searching(edges: seq<Edge>, source: NodeId, dist: Distances,
                            previous: map<NodeId, NodeId>, visited: set<NodeId>, rank: map<NodeId, nat>)
  {
    && rank.Keys == visited
    && FiniteAt(dist, source) && dist[source].value == 0.0 && source !in previous
    && (forall n :: n in visited ==> FiniteAt(dist, n))
    && (forall n {:trigger rank[n]} :: n in visited ==> rank[n] < |visited|)
    && (forall n :: Tracked(edges, source, dist, previous, visited, rank, n))
  }

  // Every node with a tentative distance was reached over an arc from a node visited earlier.
  ghost predicate Tracked(edges: seq<Edge>, source: NodeId, dist: Distances, previous: map<NodeId, NodeId>,
                          visited: set<NodeId>, rank: map<NodeId, nat>, n: NodeId)
    requires rank.Keys == visited
  {
    && (FiniteAt(dist, n) && n != source ==> n in previous)
    && (n in previous ==> Linked(edges, dist, previous[n], n, visited))
    && (n in previous && n in visited ==> rank[previous[n]] < rank[n])
  }

  ghost predicate Linked(edges: seq<Edge>, dist: Distances, p: NodeId, n: NodeId, visited: set<NodeId>) {
    && p in visited && FiniteAt(dist, p) && FiniteAt(dist, n)
    && Arc(edges, p, n, dist[n].value - dist[p].value)
  }

  // Every arc leaving the node has been relaxed.
  ghost predicate Relaxed(edges: seq<Edge>, dist: Distances, u: NodeId) {
    FiniteAt(dist, u) &&
    forall v, d :: Arc(edges, u, v, d) ==> FiniteAt(dist, v) && dist[v].value <= dist[u].value + d
  }

  ghost predicate AllRelaxed(edges: seq<Edge>, dist: Distances, nodes: set<NodeId>) {
    forall u :: u in nodes ==> Relaxed(edges, dist, u)
  }

  ghost predicate Lists(order: seq<NodeId>, dist: Distances) {
    forall n :: n in order <==> n in dist
  }

  // `bound` separates the settled nodes from the frontier.
  ghost predicate Separates(dist: Distances, visited: set<NodeId>, bound: real) {
    && (forall n :: n in visited && FiniteAt(dist, n) ==> dist[n].value <= bound)
    && (forall n :: n !in visited && FiniteAt(dist, n) ==> dist[n].value >= bound)
  }

  // At the k-th place stands an unvisited node, and every one before it is farther away.
  ghost predicate FirstNearest(dist: Distances, order: seq<NodeId>, visited: set<NodeId>, k: nat, minDist: real) {
    && k < |order| && order[k] !in visited && FiniteAt(dist, order[k]) && dist[order[k]].value == minDist
    && forall j :: 0 <= j < k && FiniteAt(dist, order[j]) && order[j] !in visited ==> minDist < dist[order[j]].value
  }

  /** The scan for the closest unvisited node; the first one in map order wins a tie. */
  method PickNearest(dist: Distances, order: seq<NodeId>, visited: set<NodeId>)
    returns (current: Option<NodeId>, minDist: real)
    requires Lists(order, dist)
    ensures current.None? ==> forall n :: FiniteAt(dist, n) ==> n in visited
    ensures current.Some? ==> current.value !in visited && FiniteAt(dist, current.value)
    ensures current.Some? ==> dist[current.value].value == minDist
    ensures current.Some? ==> forall n :: FiniteAt(dist, n) && n !in visited ==> minDist <= dist[n].value
    ensures current.Some? ==>
      exists k: nat :: FirstNearest(dist, order, visited, k, minDist) && order[k] == current.value
  {
    current, minDist := None, 0.0;
    ghost var at := 0;
    for i := 0 to |order|
      invariant current.Some? ==> current.value !in visited && FiniteAt(dist, current.value)
      invariant current.Some? ==> dist[current.value].value == minDist
      invariant current.Some? ==> FirstNearest(dist, order, visited, at, minDist) && order[at] == current.value
      invariant forall j :: 0 <= j < i && FiniteAt(dist, order[j]) && order[j] !in visited ==>
                              current.Some? && minDist <= dist[order[j]].value
    {
      var n := order[i];
      if n !in visited && dist[n].Some? && (current.None? || dist[n].value < minDist) {
        minDist := dist[n].value;
        current := Some(n);
        at := i;
      }
    }
    forall n | FiniteAt(dist, n) && n !in visited
      ensures current.Some? && minDist <= dist[n].value
    {
      var j :| 0 <= j < |order| && order[j] == n;
    }
  }

  // Lowering the tentative distance of an unvisited node keeps the search sound.
  lemma ImproveKeepsSearching(edges: seq<Edge>, source: NodeId, dist: Distances, previous: map<NodeId, NodeId>,
                              visited: set<NodeId>, rank: map<NodeId, nat>, current: NodeId, n: NodeId, alt: real)
    requires AllValid(edges) && Searching(edges, source, dist, previous, visited, rank)
    requires current in visited && n !in visited && n != source
    requires Arc(edges, current, n, alt - dist[current].value)
    ensures Searching(edges, source, dist[n := Some(alt)], previous[n := current], visited, rank)
  {
    var dist', previous' := dist[n := Some(alt)], previous[n := current];
    forall m ensures Tracked(edges, source, dist', previous', visited, rank, m) {
      assert Tracked(edges, source, dist, previous, visited, rank, m);
    }
  }

  lemma ImproveKeepsRelaxed(edges: seq<Edge>, dist: Distances, visited: set<NodeId>, n: NodeId, alt: real,
                            current: NodeId)
    requires forall u :: u in visited && u != current ==> Relaxed(edges, dist, u)
    requires n !in visited && (FiniteAt(dist, n) ==> alt <= dist[n].value)
    ensures forall u :: u in visited && u != current ==> Relaxed(edges, dist[n := Some(alt)], u)
  {
    var dist' := dist[n := Some(alt)];
    forall u, v, d | u in visited && u != current && Arc(edges, u, v, d)
      ensures FiniteAt(dist', v) && dist'[v].value <= dist[u].value + d
    {
      assert Relaxed(edges, dist, u);
    }
  }

  lemma SettledIsFinite(edges: seq<Edge>, source: NodeId, dist: Distances, previous: map<NodeId, NodeId>,
                        visited: set<NodeId>, rank: map<NodeId, nat>, n: NodeId)
    requires Searching(edges, source, dist, previous, visited, rank)
    ensures n in visited ==> FiniteAt(dist, n)
  {
  }

  // What every relaxation leaves true while `current` is being expanded.
  ghost predicate Expanding(edges: seq<Edge>, source: NodeId, current: NodeId, minDist: real, dist: Distances,
                            order: seq<NodeId>, previous: map<NodeId, NodeId>, visited: set<NodeId>,
                            rank: map<NodeId, nat>)
  {
    && Searching(edges, source, dist, previous, visited, rank)
    && Separates(dist, visited, minDist)
    && current in visited && FiniteAt(dist, current) && dist[current].value == minDist
    && (forall u :: u in visited && u != current ==> Relaxed(edges, dist, u))
    && Lists(order, dist)
    && (forall n :: n in dist ==> Known(edges, n))
  }

  ghost predicate NoHigher(after: Distances, before: Distances) {
    forall m :: FiniteAt(before, m) ==> FiniteAt(after, m) && after[m].value <= before[m].value
  }

  /** Relaxes one hop out of `current`. */
  method RelaxHop(ghost edges: seq<Edge>, ghost source: NodeId, current: NodeId, minDist: real, hop: Hop,
                  dist0: Distances, order0: seq<NodeId>, previous0: map<NodeId, NodeId>,
                  visited: set<NodeId>, ghost rank: map<NodeId, nat>)
    returns (dist: Distances, order: seq<NodeId>, previous: map<NodeId, NodeId>)
    requires AllValid(edges) && Arc(edges, current, hop.node, hop.distance) && source in visited
    requires Expanding(edges, source, current, minDist, dist0, order0, previous0, visited, rank)
    ensures Expanding(edges, source, current, minDist, dist, order, previous, visited, rank)
    ensures NoHigher(dist, dist0)
    ensures FiniteAt(dist, hop.node) && dist[hop.node].value <= minDist + hop.distance
  {
    hide Searching, Relaxed;
    dist, order, previous := dist0, order0, previous0;
    var n := hop.node;
    ArcIsSound(edges, current, n, hop.distance);
    SettledIsFinite(edges, source, dist, previous, visited, rank, n);
    if n !in visited {
      var alt := minDist + hop.distance;
      if n !in dist || dist[n].None? || alt < dist[n].value {
        if n !in dist { order := order + [n]; }
        ImproveKeepsSearching(edges, source, dist, previous, visited, rank, current, n, alt);
        ImproveKeepsRelaxed(edges, dist, visited, n, alt, current);
        dist := dist[n := Some(alt)];
        previous := previous[n := current];
      }
    }
  }

  /** One round of relaxation from `current`, which has just been marked visited. */
  method Relax(ghost edges: seq<Edge>, ghost source: NodeId, graph: Graph, current: NodeId, minDist: real,
               dist0: Distances, order0: seq<NodeId>, previous0: map<NodeId, NodeId>,
               visited: set<NodeId>, ghost rank: map<NodeId, nat>)
    returns (dist: Distances, order: seq<NodeId>, previous: map<NodeId, NodeId>)
    requires AllValid(edges) && Adjacent(graph, edges) && source in visited
    requires Expanding(edges, source, current, minDist, dist0, order0, previous0, visited, rank)
    ensures Expanding(edges, source, current, minDist, dist, order, previous, visited, rank)
    ensures AllRelaxed(edges, dist, visited)
  {
    hide Searching, Separates, Relaxed, Lists;
    dist, order, previous := dist0, order0, previous0;
    var hops := if current in graph then graph[current] else [];
    for k := 0 to |hops|
      invariant Expanding(edges, source, current, minDist, dist, order, previous, visited, rank)
      invariant Covers(dist, hops[..k], minDist)
    {
      assert hops[k] in graph[current];
      dist, order, previous :=
        RelaxHop(edges, source, current, minDist, hops[k], dist, order, previous, visited, rank);
    }
    assert hops[..|hops|] == hops;
    HopsCoverArcs(edges, graph, dist, current, minDist);
  }

  lemma ArcIsSound(edges: seq<Edge>, u: NodeId, v: NodeId, d: real)
    requires AllValid(edges) && Arc(edges, u, v, d)
    ensures d >= 0.0 && Known(edges, v)
  {
    var i :| 0 <= i < |edges| && Permits(edges[i], u, v, d);
    assert ValidDistance(edges[i]);
  }

  ghost predicate Covers(dist: Distances, hops: seq<Hop>, base: real) {
    forall h :: h in hops ==> FiniteAt(dist, h.node) && dist[h.node].value <= base + h.distance
  }

  lemma HopsCoverArcs(edges: seq<Edge>, graph: Graph, dist: Distances, u: NodeId, base: real)
    requires Adjacent(graph, edges) && FiniteAt(dist, u) && dist[u].value == base
    requires Covers(dist, if u in graph then graph[u] else [], base)
    ensures Relaxed(edges, dist, u)
  {
    forall v, d | Arc(edges, u, v, d) ensures FiniteAt(dist, v) && dist[v].value <= base + d {
      assert Hop(v, d) in graph[u];
    }
  }

  /**
   * The heart of optimality: however a walk leaves the source, either it ends in a settled node that
   * it could not reach more cheaply, or it has already cost at least `bound`.
   */
  lemma {:induction false} WalksCostAtLeast(edges: seq<Edge>, source: NodeId, dist: Distances,
                                            previous: map<NodeId, NodeId>, visited: set<NodeId>,
                                            rank: map<NodeId, nat>, bound: real,
                                            nodes: seq<NodeId>, legs: seq<real>)
    requires AllValid(edges) && Searching(edges, source, dist, previous, visited, rank)
    requires AllRelaxed(edges, dist, visited)
    requires forall n :: n !in visited && FiniteAt(dist, n) ==> dist[n].value >= bound
    requires IsWalk(edges, nodes, legs) && nodes[0] == source
    ensures
      var last := nodes[|nodes| - 1];
      (Total(legs) >= bound && exists n :: FiniteAt(dist, n) && n !in visited)
      || (last in visited && FiniteAt(dist, last) && Total(legs) >= dist[last].value)
  {
    if legs != [] {
      var k := |legs| - 1;
      WalksCostAtLeast(edges, source, dist, previous, visited, rank, bound, nodes[..k + 1], legs[..k]);
      assert Arc(edges, nodes[k], nodes[k + 1], legs[k]);
      assert legs[k] >= 0.0;
    }
  }

  lemma PrependKeepsWalk(edges: seq<Edge>, n: NodeId, leg: real, nodes: seq<NodeId>, legs: seq<real>)
    requires IsWalk(edges, nodes, legs) && Arc(edges, n, nodes[0], leg)
    ensures IsWalk(edges, [n] + nodes, [leg] + legs)
    ensures nodes != []
    ensures Total([leg] + legs) == leg + Total(legs)
  {
    TotalPrepend(leg, legs);
    forall i | 0 <= i <= |legs|
      ensures Arc(edges, ([n] + nodes)[i], ([n] + nodes)[i + 1], ([leg] + legs)[i])
    {
      if i > 0 { assert Arc(edges, nodes[i - 1], nodes[i], legs[i - 1]); }
    }
  }

  lemma FollowBack(edges: seq<Edge>, source: NodeId, dist: Distances, previous: map<NodeId, NodeId>,
                   visited: set<NodeId>, rank: map<NodeId, nat>, n: NodeId)
    requires Searching(edges, source, dist, previous, visited, rank) && FiniteAt(dist, n)
    ensures n !in previous ==> n == source
    ensures n in previous ==>
      && previous[n] in visited && FiniteAt(dist, previous[n])
      && Arc(edges, previous[n], n, dist[n].value - dist[previous[n]].value)
      && Height(visited, rank, previous[n]) < Height(visited, rank, n)
    ensures dist[source].value == 0.0 && source !in previous
  {
    assert Tracked(edges, source, dist, previous, visited, rank, n);
  }

  // How late a node was visited; an unvisited node counts as later than all visited ones.
  ghost function Height(visited: set<NodeId>, rank: map<NodeId, nat>, n: NodeId): nat {
    if n in visited && n in rank then rank[n] else |visited|
  }

  /** Following `previous` back from the target. It stops because every link was visited earlier. */
  method Reconstruct(ghost edges: seq<Edge>, source: NodeId, target: NodeId, ghost dist: Distances,
                     previous: map<NodeId, NodeId>, ghost visited: set<NodeId>, ghost rank: map<NodeId, nat>)
    returns (route: seq<NodeId>, ghost legs: seq<real>)
    requires Searching(edges, source, dist, previous, visited, rank)
    requires FiniteAt(dist, target)
    ensures WalkBetween(edges, source, target, route, legs)
    ensures Total(legs) == dist[target].value
    ensures NoRepeats(route)
  {
    hide Searching, IsWalk, Height, Arc;
    route, legs := [target], [];
    StartWalk(edges, target);
    var node := target;
    while node in previous
      invariant FiniteAt(dist, node)
      invariant WalkBetween(edges, node, target, route, legs)
      invariant dist[node].value + Total(legs) == dist[target].value
      invariant NoRepeats(route)
      invariant forall i :: 0 < i < |route| ==> Height(visited, rank, route[i]) > Height(visited, rank, node)
      decreases Height(visited, rank, node)
    {
      FollowBack(edges, source, dist, previous, visited, rank, node);
      var p := previous[node];
      PrependKeepsWalk(edges, p, dist[node].value - dist[p].value, route, legs);
      legs := [dist[node].value - dist[p].value] + legs;
      route := [p] + route;
      node := p;
    }
    FollowBack(edges, source, dist, previous, visited, rank, node);
  }

  lemma StartWalk(edges: seq<Edge>, n: NodeId)
    ensures WalkBetween(edges, n, n, [n], []) && Total([]) == 0.0
  {
  }

  // The state of the search between two rounds.
  ghost predicate Round(edges: seq<Edge>, source: NodeId, target: NodeId, dist: Distances, order: seq<NodeId>,
                        previous: map<NodeId, NodeId>, visited: set<NodeId>, rank: map<NodeId, nat>, bound: real)
  {
    && Searching(edges, source, dist, previous, visited, rank)
    && AllRelaxed(edges, dist, visited)
    && Lists(order, dist)
    && target !in visited
    && (source in visited || Fresh(source, dist, visited))
    && Separates(dist, visited, bound)
    && (forall n :: n in dist ==> Known(edges, n))
  }

  ghost predicate Fresh(source: NodeId, dist: Distances, visited: set<NodeId>) {
    visited == {} && forall n :: FiniteAt(dist, n) ==> n == source
  }

  lemma TrackedStays(edges: seq<Edge>, source: NodeId, dist: Distances, previous: map<NodeId, NodeId>,
                     visited: set<NodeId>, rank: map<NodeId, nat>, current: NodeId, n: NodeId)
    requires rank.Keys == visited && Tracked(edges, source, dist, previous, visited, rank, n)
    requires forall m {:trigger rank[m]} :: m in visited ==> rank[m] < |visited|
    requires current !in visited
    ensures rank[current := |visited|].Keys == visited + {current}
    ensures Tracked(edges, source, dist, previous, visited + {current}, rank[current := |visited|], n)
  {
  }

  lemma VisitKeepsSearching(edges: seq<Edge>, source: NodeId, dist: Distances, previous: map<NodeId, NodeId>,
                            visited: set<NodeId>, rank: map<NodeId, nat>, current: NodeId)
    requires Searching(edges, source, dist, previous, visited, rank)
    requires current !in visited && FiniteAt(dist, current)
    ensures Searching(edges, source, dist, previous, visited + {current}, rank[current := |visited|])
  {
    hide Tracked;
    var visited', rank' := visited + {current}, rank[current := |visited|];
    assert |visited'| == |visited| + 1;
    assert forall n :: Tracked(edges, source, dist, previous, visited', rank', n) by {
      forall n ensures Tracked(edges, source, dist, previous, visited', rank', n) {
        TrackedStays(edges, source, dist, previous, visited, rank, current, n);
      }
    }
  }

  lemma StartsSearching(edges: seq<Edge>, source: NodeId, target: NodeId, dist: Distances, order: seq<NodeId>)
    requires source != target && FiniteAt(dist, source) && dist[source].value == 0.0
    requires Fresh(source, dist, {}) && Lists(order, dist)
    requires forall n :: n in dist ==> Known(edges, n)
    ensures Round(edges, source, target, dist, order, map[], {}, map[], 0.0)
  {
    forall n ensures Tracked(edges, source, dist, map[], {}, map[], n) {}
  }

  /** Marks the closest node visited and relaxes what leaves it. */
  method Settle(ghost edges: seq<Edge>, ghost source: NodeId, ghost target: NodeId, graph: Graph,
                current: NodeId, minDist: real, dist0: Distances, order0: seq<NodeId>,
                previous0: map<NodeId, NodeId>, visited0: set<NodeId>, ghost rank0: map<NodeId, nat>, ghost bound: real)
    returns (dist: Distances, order: seq<NodeId>, previous: map<NodeId, NodeId>,
             visited: set<NodeId>, ghost rank: map<NodeId, nat>)
    requires AllValid(edges) && Adjacent(graph, edges)
    requires Round(edges, source, target, dist0, order0, previous0, visited0, rank0, bound)
    requires current !in visited0 && current != target && FiniteAt(dist0, current) && dist0[current].value == minDist
    requires forall n :: FiniteAt(dist0, n) && n !in visited0 ==> minDist <= dist0[n].value
    ensures visited == visited0 + {current}
    ensures Round(edges, source, target, dist, order, previous, visited, rank, minDist)
  {
    hide Searching, Relaxed, Lists;
    VisitKeepsSearching(edges, source, dist0, previous0, visited0, rank0, current);
    rank := rank0[current := |visited0|];
    visited := visited0 + {current};
    dist, order, previous := Relax(edges, source, graph, current, minDist, dist0, order0, previous0, visited, rank);
  }

  /** The main loop. Each round settles one more known node. */
  method Search(edges: seq<Edge>, source: NodeId, target: NodeId, graph: Graph, nodes: seq<NodeId>,
                ghost known: set<NodeId>)
    returns (dist: Distances, previous: map<NodeId, NodeId>, ghost visited: set<NodeId>, ghost rank: map<NodeId, nat>)
    requires AllValid(edges) && Adjacent(graph, edges) && source != target
    requires Known(edges, source) && (forall n :: n in known <==> Known(edges, n))
    requires graph.Keys <= known && KeysOf(nodes, graph)
    ensures Searching(edges, source, dist, previous, visited, rank) && target !in visited
    ensures AllRelaxed(edges, dist, visited)
    ensures FiniteAt(dist, target) ==> Cheapest(edges, source, target, dist[target].value)
    ensures !FiniteAt(dist, target) ==> !Reachable(edges, source, target)
  {
    dist := map n | n in graph :: None;
    previous := map[];
    var seen: set<NodeId> := {};
    var order := if source in dist then nodes else nodes + [source];
    dist := dist[source := Some(0.0)];
    rank := map[];
    ghost var bound := 0.0;
    StartsSearching(edges, source, target, dist, order);
    while true
      invariant Round(edges, source, target, dist, order, previous, seen, rank, bound)
      decreases known - seen
    {
      var current, minDist := PickNearest(dist, order, seen);
      if current.None? {
        NoWalkWhenExhausted(edges, source, target, dist, previous, seen, rank);
        break;
      }
      if current.value == target {
        TargetIsCheapest(edges, source, target, dist, previous, seen, rank);
        break;
      }
      assert current.value in known - seen;
      dist, order, previous, seen, rank :=
        Settle(edges, source, target, graph, current.value, minDist, dist, order, previous, seen, rank, bound);
      bound := minDist;
    }
    visited := seen;
  }

  /**
   * The planner. It rejects the first bad edge, then an unknown source, then an unknown target;
   * otherwise it answers with a cheapest walk, or reports that none exists.
   */
  method PlanRoute(source: NodeId, target: NodeId, edges: seq<Edge>) returns (plan: Plan)
    ensures plan.InvalidDistance? <==> !AllValid(edges)
    ensures plan.InvalidDistance? ==>
      plan.edge < |edges| && !ValidDistance(edges[plan.edge]) && AllValid(edges[..plan.edge])
    ensures plan.UnknownFrom? <==> AllValid(edges) && !Known(edges, source)
    ensures plan.UnknownTo? <==> AllValid(edges) && Known(edges, source) && !Known(edges, target)
    ensures plan.NoRoute? <==>
      AllValid(edges) && Known(edges, source) && Known(edges, target) && !Reachable(edges, source, target)
    ensures plan.Route? ==> ShortestRoute(edges, source, target, plan.nodes) && NoRepeats(plan.nodes)
  {
    var graph, nodes, known, bad := BuildGraph(edges);
    if bad.Some? { return InvalidDistance(bad.value); }
    if source !in known { return UnknownFrom; }
    if target !in known { return UnknownTo; }
    if source == target {
      StayingIsFree(edges, source);
      return Route([source]);
    }
    var dist, previous, visited, rank := Search(edges, source, target, graph, nodes, known);
    if target !in dist || dist[target].None? { return NoRoute; }
    var route, legs := Reconstruct(edges, source, target, dist, previous, visited, rank);
    plan := Route(route);
  }

  lemma StayingIsFree(edges: seq<Edge>, n: NodeId)
    requires AllValid(edges)
    ensures ShortestRoute(edges, n, n, [n]) && Reachable(edges, n, n)
  {
    assert WalkBetween(edges, n, n, [n], []);
    forall nodes, legs | WalkBetween(edges, n, n, nodes, legs) ensures Total([]) <= Total(legs) {
      TotalNonNegative(edges, nodes, legs);
    }
  }

  lemma TargetIsCheapest(edges: seq<Edge>, source: NodeId, target: NodeId, dist: Distances,
                         previous: map<NodeId, NodeId>, visited: set<NodeId>, rank: map<NodeId, nat>)
    requires AllValid(edges) && Searching(edges, source, dist, previous, visited, rank)
    requires AllRelaxed(edges, dist, visited)
    requires target !in visited && FiniteAt(dist, target)
    requires forall n :: FiniteAt(dist, n) && n !in visited ==> dist[target].value <= dist[n].value
    ensures Cheapest(edges, source, target, dist[target].value)
  {
    forall nodes, legs | WalkBetween(edges, source, target, nodes, legs)
      ensures dist[target].value <= Total(legs)
    {
      WalksCostAtLeast(edges, source, dist, previous, visited, rank, dist[target].value, nodes, legs);
    }
  }

  lemma NoWalkWhenExhausted(edges: seq<Edge>, source: NodeId, target: NodeId, dist: Distances,
                            previous: map<NodeId, NodeId>, visited: set<NodeId>, rank: map<NodeId, nat>)
    requires AllValid(edges) && Searching(edges, source, dist, previous, visited, rank)
    requires AllRelaxed(edges, dist, visited)
    requires forall n :: FiniteAt(dist, n) ==> n in visited
    requires target !in visited
    ensures !Reachable(edges, source, target)
  {
    forall nodes, legs | WalkBetween(edges, source, target, nodes, legs) ensures false {
      WalksCostAtLeast(edges, source, dist, previous, visited, rank, 0.0, nodes, legs);
    }
  }
}
