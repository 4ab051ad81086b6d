/**
 Control graphs as the compiler and the engine both see them, and what they mean:
 paths, acyclicity, and which nodes a choice of branch routes activates.
 */
module Graphs {
  import opened Ids

  type Route = string

  datatype Edge = Edge(id: Id, source: Id, target: Id, route: Route)

  // branches are the nodes that take exactly one route; all other nodes activate every edge.
  datatype Graph = Graph(nodes: set<Id>, edges: seq<Edge>, branches: set<Id>, start: Id)

  // Every edge joins two nodes of the document, as the structural validator has checked.
  ghost predicate Closed(g: Graph) {
    && g.start in g.nodes
    && forall i :: 0 <= i < |g.edges| ==> g.edges[i].source in g.nodes && g.edges[i].target in g.nodes
  }

  ghost predicate HasEdge(g: Graph, a: Id, b: Id) {
    exists i :: 0 <= i < |g.edges| && g.edges[i].source == a && g.edges[i].target == b
  }

  ghost predicate IsPath(g: Graph, p: seq<Id>) {
    |p| >= 1 && forall i :: 0 <= i < |p| - 1 ==> HasEdge(g, p[i], p[i + 1])
  }

  ghost predicate PathFromTo(g: Graph, p: seq<Id>, a: Id, b: Id) {
    |p| >= 2 && IsPath(g, p) && p[0] == a && p[|p| - 1] == b
  }

  // b can be reached from a along at least one edge.
  ghost predicate Reaches(g: Graph, a: Id, b: Id) {
    exists p :: PathFromTo(g, p, a, b)
  }

  ghost predicate Acyclic(g: Graph) {
    forall n :: n in g.nodes ==> !Reaches(g, n, n)
  }

  // order lists every node once, and every edge points forward in it.
  ghost predicate IsTopological(g: Graph, order: seq<Id>) {
    && NoDuplicates(order)
    && Elements(order) == g.nodes
    && forall i, j, k |
         0 <= i < |g.edges| && 0 <= j < |order| && 0 <= k < |order|
         && order[j] == g.edges[i].source && order[k] == g.edges[i].target
         :: j < k
  }

  ghost function Position(order: seq<Id>, n: Id): (k: nat)
    requires n in order
    ensures k < |order| && order[k] == n
  {
    var k :| 0 <= k < |order| && order[k] == n;
    k
  }

  lemma EdgePointsForward(g: Graph, order: seq<Id>, i: nat)
    requires Closed(g) && IsTopological(g, order) && i < |g.edges|
    ensures g.edges[i].source in order && g.edges[i].target in order
    ensures Position(order, g.edges[i].source) < Position(order, g.edges[i].target)
  {
    assert g.edges[i].source in Elements(order) && g.edges[i].target in Elements(order);
  }

  // ---------------------------------------------------------------- paths

  lemma EdgeReaches(g: Graph, a: Id, b: Id)
    requires HasEdge(g, a, b)
    ensures Reaches(g, a, b)
  {
    assert PathFromTo(g, [a, b], a, b);
  }

  // Taking an edge and then a path is a path.
  lemma ReachesStep(g: Graph, a: Id, b: Id, c: Id)
    requires HasEdge(g, a, b) && Reaches(g, b, c)
    ensures Reaches(g, a, c)
  {
    var p :| PathFromTo(g, p, b, c);
    var q := [a] + p;
    assert forall i :: 1 <= i < |q| ==> q[i] == p[i - 1];
    assert PathFromTo(g, q, a, c);
  }

  lemma SubPath(g: Graph, p: seq<Id>, i: nat, j: nat)
    requires IsPath(g, p) && i < j <= |p|
    ensures IsPath(g, p[i..j])
  {
    forall k | 0 <= k < j - i - 1 ensures HasEdge(g, p[i..j][k], p[i..j][k + 1]) {
      assert HasEdge(g, p[i + k], p[i + k + 1]);
    }
  }

  // A non-empty path is an edge, or an edge followed by a non-empty path.
  lemma ReachesSplit(g: Graph, a: Id, c: Id)
    ensures Reaches(g, a, c) <==> HasEdge(g, a, c) || exists b :: HasEdge(g, a, b) && Reaches(g, b, c)
  {
    if Reaches(g, a, c) && !HasEdge(g, a, c) {
      var p :| PathFromTo(g, p, a, c);
      assert HasEdge(g, p[0], p[1]);
      assert |p| > 2;
      var q := p[1..];
      SubPath(g, p, 1, |p|);
      assert PathFromTo(g, q, p[1], c);
    }
    if HasEdge(g, a, c) { EdgeReaches(g, a, c); }
    forall b | HasEdge(g, a, b) && Reaches(g, b, c) ensures Reaches(g, a, c) {
      ReachesStep(g, a, b, c);
    }
  }

  lemma {:induction false} PathPointsForward(g: Graph, order: seq<Id>, p: seq<Id>, i: nat)
    requires Closed(g) && IsTopological(g, order) && IsPath(g, p) && 0 < i < |p|
    ensures p[0] in order && p[i] in order && Position(order, p[0]) < Position(order, p[i])
  {
    assert HasEdge(g, p[i - 1], p[i]);
    var e :| 0 <= e < |g.edges| && g.edges[e].source == p[i - 1] && g.edges[e].target == p[i];
    EdgePointsForward(g, order, e);
    if i > 1 {
      PathPointsForward(g, order, p, i - 1);
    }
  }

  lemma ReachesPointsForward(g: Graph, order: seq<Id>, a: Id, b: Id)
    requires Closed(g) && IsTopological(g, order) && Reaches(g, a, b)
    ensures a in order && b in order && Position(order, a) < Position(order, b)
  {
    var p :| PathFromTo(g, p, a, b);
    PathPointsForward(g, order, p, |p| - 1);
  }

  lemma TopologicalIsAcyclic(g: Graph, order: seq<Id>)
    requires Closed(g) && IsTopological(g, order)
    ensures Acyclic(g)
  {
    forall n | n in g.nodes && Reaches(g, n, n) ensures false {
      ReachesPointsForward(g, order, n, n);
    }
  }

  // ---------------------------------------------------------------- cycles

  ghost predicate HasPredecessorIn(g: Graph, rest: set<Id>, n: Id) {
    exists m :: m in rest && HasEdge(g, m, n)
  }

  ghost predicate Rooted(g: Graph, rest: set<Id>) {
    forall n {:trigger HasPredecessorIn(g, rest, n)} :: n in rest ==> HasPredecessorIn(g, rest, n)
  }

  // Walking backwards inside rest never gets stuck.
  lemma {:induction false} BackwardWalk(g: Graph, rest: set<Id>, n: Id, k: nat) returns (p: seq<Id>)
    requires Rooted(g, rest) && n in rest
    ensures |p| == k + 1 && IsPath(g, p) && forall i :: 0 <= i < |p| ==> p[i] in rest
  {
    if k == 0 {
      p := [n];
    } else {
      var q := BackwardWalk(g, rest, n, k - 1);
      assert HasPredecessorIn(g, rest, q[0]);
      var m :| m in rest && HasEdge(g, m, q[0]);
      p := [m] + q;
      assert forall i :: 1 <= i < |p| ==> p[i] == q[i - 1];
    }
  }

  // A set in which every node has a predecessor contains a node on a cycle.
  lemma RootedHasCycle(g: Graph, rest: set<Id>)
    requires Rooted(g, rest) && rest != {} && rest <= g.nodes
    ensures !Acyclic(g)
  {
    var n :| n in rest;
    var p := BackwardWalk(g, rest, n, |rest|);
    if NoDuplicates(p) {
      Pigeonhole(p, rest);
    }
    var i, j :| 0 <= i < j < |p| && p[i] == p[j];
    var q := p[i..j + 1];
    SubPath(g, p, i, j + 1);
    assert PathFromTo(g, q, p[i], p[i]);
    assert Reaches(g, p[i], p[i]);
  }

  // ---------------------------------------------------------------- activation

  // A choice of a route for every branch.
  type Routing = Id -> Route

  // The edge is taken whenever its source is active.
  ghost predicate Taken(g: Graph, e: Edge, r: Routing) {
    e.source in g.branches ==> r(e.source) == e.route
  }

  ghost predicate LivePath(g: Graph, p: seq<Edge>, n: Id, r: Routing) {
    if p == [] then n == g.start
    else
      var e := p[|p| - 1];
      e in g.edges && e.target == n && Taken(g, e, r) && LivePath(g, p[..|p| - 1], e.source, r)
  }

  // n is activated: some path from the start takes only edges the routing selects.
  ghost predicate Active(g: Graph, n: Id, r: Routing) {
    exists p :: LivePath(g, p, n, r)
  }

  lemma StartIsActive(g: Graph, r: Routing)
    ensures Active(g, g.start, r)
  {
    assert LivePath(g, [], g.start, r);
  }

  // Other nodes are active exactly when a taken edge enters them from an active node.
  lemma ActiveStep(g: Graph, n: Id, r: Routing)
    requires n != g.start
    ensures Active(g, n, r) <==> exists e :: e in g.edges && e.target == n && Taken(g, e, r) && Active(g, e.source, r)
  {
    forall p: seq<Edge> | LivePath(g, p, n, r)
      ensures exists e :: e in g.edges && e.target == n && Taken(g, e, r) && Active(g, e.source, r)
    {
      var e := p[|p| - 1];
      assert LivePath(g, p[..|p| - 1], e.source, r);
    }
    forall e | e in g.edges && e.target == n && Taken(g, e, r) && Active(g, e.source, r) ensures Active(g, n, r) {
      var p :| LivePath(g, p, e.source, r);
      assert (p + [e])[..|p|] == p;
      assert LivePath(g, p + [e], n, r);
    }
  }

  // Whether a node is active depends on the routes of the branches with outgoing edges alone.
  ghost predicate SameRoutes(g: Graph, r: Routing, r2: Routing) {
    forall e :: e in g.edges && e.source in g.branches ==> r(e.source) == r2(e.source)
  }

  lemma {:induction false} LivePathAgrees(g: Graph, p: seq<Edge>, n: Id, r: Routing, r2: Routing)
    requires SameRoutes(g, r, r2)
    ensures LivePath(g, p, n, r) == LivePath(g, p, n, r2)
  {
    if p != [] {
      LivePathAgrees(g, p[..|p| - 1], p[|p| - 1].source, r, r2);
    }
  }

  lemma ActiveAgrees(g: Graph, n: Id, r: Routing, r2: Routing)
    requires SameRoutes(g, r, r2)
    ensures Active(g, n, r) == Active(g, n, r2)
  {
    if Active(g, n, r) {
      var p :| LivePath(g, p, n, r);
      LivePathAgrees(g, p, n, r, r2);
    }
    if Active(g, n, r2) {
      var p :| LivePath(g, p, n, r2);
      LivePathAgrees(g, p, n, r, r2);
    }
  }
}
