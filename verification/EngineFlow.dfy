/**
 Where the static analysis meets the engine: a settled node is activated exactly when the routes
 taken activate it, and references accepted by the compiler always resolve.
 */
module EngineFlow {
  import opened Ids
  import opened Json
  import opened Runtime
  import opened Graphs
  import opened Workflow
  import opened EngineSpec
  import opened EngineInvariants
  import opened EngineDrive
  import opened EngineSafety
  import DataBindings

  // ---------------------------------------------------------------- positions in a topological order

  lemma {:induction false} FirstIn(order: seq<Id>, pool: set<Id>) returns (k: nat)
    requires exists x :: x in pool && x in order
    ensures k < |order| && order[k] in pool && forall j :: 0 <= j < k ==> order[j] !in pool
  {
    if order[0] in pool {
      k := 0;
    } else {
      assert order == [order[0]] + order[1..];
      var j := FirstIn(order[1..], pool);
      k := j + 1;
    }
  }

  lemma {:induction false} LastIn(order: seq<Id>, pool: set<Id>) returns (k: nat)
    requires exists x :: x in pool && x in order
    ensures k < |order| && order[k] in pool && forall j :: k < j < |order| ==> order[j] !in pool
  {
    var last := |order| - 1;
    if order[last] in pool {
      k := last;
    } else {
      assert order == order[..last] + [order[last]];
      k := LastIn(order[..last], pool);
    }
  }

  // Edge i points forward in the order.
  lemma EdgeForward(d: Doc, order: seq<Id>, i: nat) returns (j: nat, k: nat)
    requires ValidDoc(d) && IsTopological(GraphOf(d), order) && i < |d.edges|
    ensures j < k < |order| && order[j] == d.edges[i].source && order[k] == d.edges[i].target
  {
    hide ValidDoc;
    GraphIsClosed(d);
    assert GraphOf(d).edges[i] == EdgeOf(d.edges[i]);
    EdgePointsForward(GraphOf(d), order, i);
    j, k := Position(order, d.edges[i].source), Position(order, d.edges[i].target);
  }

  lemma DocOrder(d: Doc, s: State) returns (order: seq<Id>)
    requires Steady(d, s)
    ensures IsTopological(GraphOf(d), order)
  {
    hide ValidNode, ValidEdges, Driving, IsTopological;
    order :| IsTopological(GraphOf(d), order);
  }

  lemma InOrder(d: Doc, order: seq<Id>, n: Id)
    requires IsTopological(GraphOf(d), order)
    ensures n in d.nodes <==> n in order
  {
    assert n in Elements(order) <==> n in order;
  }

  // ---------------------------------------------------------------- activation

  // A routing that takes the routes the run has taken so far.
  ghost predicate Agrees(d: Doc, s: State, r: Routing) {
    forall b :: b in d.nodes && b in s.nodes && d.nodes[b].op.BranchOp? && s.nodes[b].state.Succeeded? ==> r(b) == s.nodes[b].route
  }

  // What the proofs below use of a run that is not terminating.
  ghost predicate Steady(d: Doc, s: State) {
    ValidDoc(d) && Driving(d, s)
  }

  lemma SteadyNode(d: Doc, s: State, n: Id)
    requires Steady(d, s) && n in s.nodes
    ensures Fits(d, s) && n in d.nodes && Placed(d, s, n) && NodeFlow(d.nodes[n], s.nodes[n]) && !EndedBadly(s.nodes[n])
    ensures !s.nodes[n].state.Pending? ==> (s.nodes[n].activated <==> !s.nodes[n].state.Skipped?)
    ensures s.nodes[d.entry].state.Succeeded?
    ensures s.nodes[n].state.Terminal() ==> s.nodes[n].state.Succeeded? || s.nodes[n].state.Skipped?
  {
    hide ValidDoc, Driving, Linked, Counted;
    DrivingFacts(d, s, n);
  }

  lemma SteadyEdge(d: Doc, s: State, i: nat)
    requires Steady(d, s) && i < |d.edges|
    ensures Fits(d, s) && d.edges[i].source in s.nodes && d.edges[i].target in s.nodes
    ensures s.edges[i] == Projected(d, s, i) && d.edges[i].target != d.entry && d.edges[i].source != d.exit
  {
    hide ValidDoc, Core, Placed, NodeFlow;
    DrivingFits(d, s);
    EdgeEnds(d, i);
  }

  // An edge is active exactly when its source succeeded and the routing takes it.
  lemma EdgeMeaning(d: Doc, s: State, r: Routing, i: nat)
    requires Steady(d, s) && Agrees(d, s, r) && i < |d.edges| && Fits(d, s)
    ensures d.edges[i].source in s.nodes
    ensures s.edges[i].EdgeActive? <==> s.nodes[d.edges[i].source].state.Succeeded? && Taken(GraphOf(d), EdgeOf(d.edges[i]), r)
    ensures s.edges[i].EdgePending? <==> !s.nodes[d.edges[i].source].state.Terminal()
  {
    hide Steady, ValidDoc;
    SteadyEdge(d, s, i);
    EdgeKinds(d, s, i);
  }

  lemma EdgeKinds(d: Doc, s: State, i: nat)
    requires Steady(d, s) && i < |d.edges|
    ensures d.edges[i].source in d.nodes
    ensures if d.nodes[d.edges[i].source].op.BranchOp? then d.edges[i].activation.OnRoute? else d.edges[i].activation.Always?
  {
    hide ValidNode, Driving;
    assert ValidEdge(d, d.edges[i]);
  }

  // The incoming edges of a node whose predecessors are all settled say whether it is active.
  lemma IncomingMeansActive(d: Doc, s: State, r: Routing, n: Id)
    requires Steady(d, s) && Agrees(d, s, r) && n in s.nodes && n != d.entry && Fits(d, s) && AllIncomingSettled(d, s, n)
    requires forall i :: 0 <= i < |d.edges| && d.edges[i].target == n ==>
               d.edges[i].source in s.nodes && (s.nodes[d.edges[i].source].state.Succeeded? <==> Active(GraphOf(d), d.edges[i].source, r))
    ensures AnyIncomingActive(d, s, n) <==> Active(GraphOf(d), n, r)
  {
    hide Steady, Agrees;
    var g := GraphOf(d);
    ActiveStep(g, n, r);
    forall i | 0 <= i < |d.edges| && d.edges[i].target == n
      ensures s.edges[i].EdgeActive? <==> Taken(g, g.edges[i], r) && Active(g, g.edges[i].source, r)
    {
      EdgeMeaning(d, s, r, i);
      assert g.edges[i] == EdgeOf(d.edges[i]);
    }
    if Active(g, n, r) {
      var e :| e in g.edges && e.target == n && Taken(g, e, r) && Active(g, e.source, r);
      var i :| 0 <= i < |g.edges| && g.edges[i] == e;
      assert s.edges[i].EdgeActive?;
    }
    if AnyIncomingActive(d, s, n) {
      var i :| 0 <= i < |d.edges| && d.edges[i].target == n && s.edges[i].EdgeActive?;
      assert g.edges[i] in g.edges;
    }
  }

  // A settled node was activated exactly when the routes taken activate it.
  lemma {:induction false} ActivatedIffActive(d: Doc, s: State, r: Routing, order: seq<Id>, k: nat)
    requires Steady(d, s) && Agrees(d, s, r) && IsTopological(GraphOf(d), order) && k < |order|
    requires order[k] in s.nodes && !s.nodes[order[k]].state.Pending?
    ensures s.nodes[order[k]].activated <==> Active(GraphOf(d), order[k], r)
    decreases k
  {
    hide Steady, Agrees, Placed, NodeFlow;
    var n := order[k];
    SteadyNode(d, s, n);
    if n == d.entry {
      StartIsActive(GraphOf(d), r);
    } else {
      PlacedSettled(d, s, n);
      forall i | 0 <= i < |d.edges| && d.edges[i].target == n
        ensures d.edges[i].source in s.nodes && (s.nodes[d.edges[i].source].state.Succeeded? <==> Active(GraphOf(d), d.edges[i].source, r))
      {
        SourceSettled(d, s, r, order, k, i);
        var j := SourcePosition(d, s, order, k, i);
        ActivatedIffActive(d, s, r, order, j);
        SteadyNode(d, s, order[j]);
      }
      IncomingMeansActive(d, s, r, n);
    }
  }

  lemma PlacedSettled(d: Doc, s: State, n: Id)
    requires Steady(d, s) && n in s.nodes && n != d.entry && !s.nodes[n].state.Pending?
    ensures Fits(d, s) && AllIncomingSettled(d, s, n) && (AnyIncomingActive(d, s, n) <==> !s.nodes[n].state.Skipped?)
  {
    hide Steady, NodeFlow;
    SteadyNode(d, s, n);
  }

  lemma SourceSettled(d: Doc, s: State, r: Routing, order: seq<Id>, k: nat, i: nat)
    requires Steady(d, s) && k < |order| && i < |d.edges| && d.edges[i].target == order[k]
    requires Fits(d, s) && AllIncomingSettled(d, s, order[k])
    ensures d.edges[i].source in s.nodes && s.nodes[d.edges[i].source].state.Terminal()
  {
    hide Steady;
    SteadyEdge(d, s, i);
  }

  lemma SourcePosition(d: Doc, s: State, order: seq<Id>, k: nat, i: nat) returns (j: nat)
    requires Steady(d, s) && IsTopological(GraphOf(d), order) && k < |order| && i < |d.edges| && d.edges[i].target == order[k]
    ensures j < k && order[j] == d.edges[i].source
  {
    hide ValidDoc, Driving;
    var k2: nat;
    j, k2 := EdgeForward(d, order, i);
    SamePosition(order, k, k2);
  }

  lemma SamePosition(order: seq<Id>, k: nat, k2: nat)
    requires NoDuplicates(order) && k < |order| && k2 < |order| && order[k] == order[k2]
    ensures k == k2
  {
  }

  // ---------------------------------------------------------------- references

  // Everything upstream of a node whose incoming edges are settled is settled.
  lemma {:induction false} UpstreamSettled(d: Doc, s: State, p: seq<Id>)
    requires Steady(d, s) && Fits(d, s) && |p| >= 2 && IsPath(GraphOf(d), p) && AllIncomingSettled(d, s, p[|p| - 1])
    ensures p[0] in s.nodes && s.nodes[p[0]].state.Terminal()
    decreases |p|
  {
    hide Steady, Placed, NodeFlow;
    var last := |p| - 1;
    var g := GraphOf(d);
    assert HasEdge(g, p[last - 1], p[last]);
    var i :| 0 <= i < |g.edges| && g.edges[i].source == p[last - 1] && g.edges[i].target == p[last];
    assert g.edges[i] == EdgeOf(d.edges[i]);
    SteadyEdge(d, s, i);
    if |p| > 2 {
      assert HasEdge(g, p[last - 2], p[last - 1]);
      var k :| 0 <= k < |g.edges| && g.edges[k].source == p[last - 2] && g.edges[k].target == p[last - 1];
      assert g.edges[k] == EdgeOf(d.edges[k]);
      SteadyEdge(d, s, k);
      PlacedSettled(d, s, p[last - 1]);
      SubPath(g, p, 0, last);
      UpstreamSettled(d, s, p[..last]);
    }
  }

  // The routes taken, completed with default routes, form a legal routing.
  ghost function RoutesTaken(d: Doc, s: State): Routing {
    (b: Id) => if b in s.nodes && b in d.nodes && d.nodes[b].op.BranchOp?
               then (if s.nodes[b].state.Succeeded? then s.nodes[b].route else d.nodes[b].op.fallback)
               else ""
  }

  lemma RoutesTakenLegal(d: Doc, s: State)
    requires Steady(d, s)
    ensures Agrees(d, s, RoutesTaken(d, s)) && DataBindings.Legal(GraphOf(d), DomainsOf(d), RoutesTaken(d, s))
  {
    hide Steady, Placed;
    var g := GraphOf(d);
    forall b | b in g.nodes * g.branches && b in DomainsOf(d) && DomainsOf(d)[b] != []
      ensures RoutesTaken(d, s)(b) in DomainsOf(d)[b]
    {
      SteadyFits(d, s);
      SteadyNode(d, s, b);
      assert d.nodes[b].op.fallback == RoutesOf(d.nodes[b].op)[0];
    }
  }

  lemma SteadyFits(d: Doc, s: State)
    requires Steady(d, s)
    ensures Fits(d, s) && d.entry in s.nodes && d.exit in s.nodes
  {
    hide ValidDoc, Driving;
    DrivingFits(d, s);
  }

  // A node about to fire is active under the routes taken.
  lemma FiringIsActive(d: Doc, s: State, n: Id)
    requires Steady(d, s) && Fits(d, s) && n in s.nodes && n != d.entry && AllIncomingSettled(d, s, n) && AnyIncomingActive(d, s, n)
    ensures Active(GraphOf(d), n, RoutesTaken(d, s))
  {
    hide Steady, Agrees, Placed, NodeFlow, IsTopological, RoutesTaken, DataBindings.Legal;
    var r := RoutesTaken(d, s);
    RoutesTakenLegal(d, s);
    var order := DocOrder(d, s);
    forall i | 0 <= i < |d.edges| && d.edges[i].target == n
      ensures d.edges[i].source in s.nodes && (s.nodes[d.edges[i].source].state.Succeeded? <==> Active(GraphOf(d), d.edges[i].source, r))
    {
      SteadyEdge(d, s, i);
      SettledNodeActive(d, s, r, order, d.edges[i].source);
    }
    IncomingMeansActive(d, s, r, n);
  }

  lemma SettledNodeActive(d: Doc, s: State, r: Routing, order: seq<Id>, n: Id)
    requires Steady(d, s) && Agrees(d, s, r) && IsTopological(GraphOf(d), order) && n in s.nodes && s.nodes[n].state.Terminal()
    ensures s.nodes[n].state.Succeeded? <==> Active(GraphOf(d), n, r)
  {
    hide Steady, Agrees, Placed, NodeFlow;
    SteadyFits(d, s);
    InOrder(d, order, n);
    var k :| 0 <= k < |order| && order[k] == n;
    ActivatedIffActive(d, s, r, order, k);
    SteadyNode(d, s, n);
  }

  // A reference accepted by the static check finds its source succeeded, with the output it names.
  lemma ReferenceResolves(d: Doc, s: State, n: Id, m: Id, t: DataType, name: string)
    requires Steady(d, s) && Fits(d, s) && n in s.nodes && n != d.entry && AllIncomingSettled(d, s, n) && AnyIncomingActive(d, s, n)
    requires DataBindings.Safe(GraphOf(d), DomainsOf(d), DataBindings.Ref(n, m)) && ValidBinding(d, FromOutput(t, m, name))
    ensures Bind(s, FromOutput(t, m, name)).Has?
  {
    hide Steady, Placed, NodeFlow, Agrees, IsTopological, RoutesTaken;
    var g := GraphOf(d);
    var p :| PathFromTo(g, p, m, n);
    var order := DocOrder(d, s);
    UpstreamSettled(d, s, p);
    FiringIsActive(d, s, n);
    RoutesTakenLegal(d, s);
    SettledNodeActive(d, s, RoutesTaken(d, s), order, m);
    SourceHasOutput(d, s, m, name);
  }

  lemma SourceHasOutput(d: Doc, s: State, m: Id, name: string)
    requires Steady(d, s) && m in s.nodes && m in d.nodes && s.nodes[m].state.Succeeded? && name in d.nodes[m].outputs
    ensures name in s.nodes[m].outputs
  {
    hide Steady, Placed;
    SteadyNode(d, s, m);
  }

  // In every state of the driving loop, the inputs of a node about to fire resolve.
  lemma InputsAlwaysResolve(d: Doc, s: State, n: Id)
    requires SafeBindings(d) && ValidDoc(d) && Firing(d, s, n)
    ensures n in d.nodes && ResolveInputs(s, d.nodes[n]).Resolved?
  {
    hide SafeBindings, ValidDoc, Driving, NodeFlow, ValidNode;
    FiringNode(d, s, n);
    forall k | k in d.nodes[n].inputs ensures Bind(s, d.nodes[n].inputs[k]).Has? {
      InputResolves(d, s, n, k);
    }
  }

  lemma InputResolves(d: Doc, s: State, n: Id, k: string)
    requires SafeBindings(d) && ValidDoc(d) && Firing(d, s, n) && n in d.nodes && k in d.nodes[n].inputs
    ensures Bind(s, d.nodes[n].inputs[k]).Has?
  {
    hide ValidDoc, Driving, NodeFlow, DataBindings.Safe;
    FiringNode(d, s, n);
    var b := d.nodes[n].inputs[k];
    if b.FromOutput? {
      assert ValidBinding(d, b);
      ReferenceResolves(d, s, n, b.node, b.dataType, b.name);
    }
  }
}
