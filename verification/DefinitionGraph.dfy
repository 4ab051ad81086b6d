/**
 The contract's check of a definition's control graph: edges, activations, entry and exit, cycles,
 reachability and branch routes.
 */
module DefinitionGraph {
  import opened Ids
  import opened Json
  import opened Graphs
  import opened Workflow
  import ControlGraph

  // ---------------------------------------------------------------- reachability

  ghost predicate AtOrReached(g: Graph, start: Id, n: Id) {
    n == start || Reaches(g, start, n)
  }

  lemma ReachedStep(g: Graph, start: Id, a: Id, b: Id)
    requires AtOrReached(g, start, a) && HasEdge(g, a, b)
    ensures AtOrReached(g, start, b)
  {
    if a == start {
      EdgeReaches(g, a, b);
    } else {
      var p :| PathFromTo(g, p, start, a);
      var q := p + [b];
      forall i | 0 <= i < |q| - 1 ensures HasEdge(g, q[i], q[i + 1]) {
        if i < |p| - 1 { assert HasEdge(g, p[i], p[i + 1]); }
      }
      assert PathFromTo(g, q, start, b);
    }
  }

  // The set holds start and, with a node, everything its edges lead to.
  ghost predicate ClosedUnder(g: Graph, s: set<Id>) {
    forall i :: 0 <= i < |g.edges| && g.edges[i].source in s ==> g.edges[i].target in s
  }

  lemma {:induction false} ClosedHoldsPath(g: Graph, s: set<Id>, p: seq<Id>, i: nat)
    requires ClosedUnder(g, s) && IsPath(g, p) && p[0] in s && i < |p|
    ensures p[i] in s
  {
    if i > 0 {
      ClosedHoldsPath(g, s, p, i - 1);
      assert HasEdge(g, p[i - 1], p[i]);
    }
  }

  ghost predicate Found(g: Graph, start: Id, s: set<Id>) {
    forall n :: n in s ==> AtOrReached(g, start, n)
  }

  ghost function Nodes(g: Graph, start: Id): set<Id> {
    {start} + set i | 0 <= i < |g.edges| :: g.edges[i].target
  }

  // Everything found but what is still on the stack has been followed up.
  ghost predicate FollowedUp(g: Graph, found: set<Id>, stack: seq<Id>) {
    forall i :: 0 <= i < |g.edges| && g.edges[i].source in found && g.edges[i].source !in stack ==> g.edges[i].target in found
  }

  // Pushes the targets of the edges out of id that have not been found yet.
  method Expand(g: Graph, start: Id, id: Id, found: set<Id>, stack: seq<Id>) returns (result: set<Id>, pushed: seq<Id>)
    requires id in found && Found(g, start, found) && found <= Nodes(g, start) && forall n :: n in stack ==> n in found
    ensures found <= result <= Nodes(g, start) && Found(g, start, result)
    ensures forall n :: n in stack + pushed ==> n in result
    ensures forall n :: n in result && n !in found ==> n in pushed
    ensures result == found ==> pushed == []
    ensures forall i :: 0 <= i < |g.edges| && g.edges[i].source == id ==> g.edges[i].target in result
  {
    hide AtOrReached;
    result, pushed := found, [];
    for k := 0 to |g.edges|
      invariant found <= result <= Nodes(g, start) && Found(g, start, result)
      invariant forall n :: n in pushed <==> n in result && n !in found
      invariant forall i :: 0 <= i < k && g.edges[i].source == id ==> g.edges[i].target in result
    {
      var next := g.edges[k].target;
      if g.edges[k].source == id && next !in result {
        assert HasEdge(g, id, next);
        ReachedStep(g, start, id, next);
        result := result + {next};
        pushed := pushed + [next];
      }
    }
    if pushed != [] { assert pushed[0] in pushed; }
  }

  lemma StillFollowedUp(g: Graph, found: set<Id>, stack: seq<Id>, id: Id, result: set<Id>, pushed: seq<Id>)
    requires FollowedUp(g, found, stack + [id]) && found <= result && (forall n :: n in result && n !in found ==> n in pushed)
    requires forall i :: 0 <= i < |g.edges| && g.edges[i].source == id ==> g.edges[i].target in result
    ensures FollowedUp(g, result, stack + pushed)
  {
  }

  // Walks the graph from start with a stack.
  method ReachableNodes(g: Graph, start: Id) returns (result: set<Id>)
    ensures forall n :: n in result <==> AtOrReached(g, start, n)
  {
    result := {start};
    var stack := [start];
    while stack != []
      invariant start in result && result <= Nodes(g, start) && (forall n :: n in stack ==> n in result)
      invariant Found(g, start, result) && FollowedUp(g, result, stack)
      decreases |Nodes(g, start) - result|, |stack|
    {
      hide AtOrReached, Found, FollowedUp, Nodes;
      var id := stack[|stack| - 1];
      ghost var before := result;
      stack := stack[..|stack| - 1];
      var pushed;
      result, pushed := Expand(g, start, id, result, stack);
      StillFollowedUp(g, before, stack, id, result, pushed);
      stack := stack + pushed;
      if result != before { Fewer(Nodes(g, start), before, result); }
    }
    forall n | AtOrReached(g, start, n) ensures n in result {
      if n != start {
        var p :| PathFromTo(g, p, start, n);
        ClosedHoldsPath(g, result, p, |p| - 1);
      }
    }
  }

  lemma Fewer(all: set<Id>, before: set<Id>, after: set<Id>)
    requires before < after <= all
    ensures |all - after| < |all - before|
  {
    var x :| x in after && x !in before;
    assert all - after <= (all - before) - {x};
    SubsetIsSmaller(all - after, (all - before) - {x});
  }

  // ---------------------------------------------------------------- backwards

  function Flipped(g: Graph): Graph {
    g.(edges := seq(|g.edges|, i requires 0 <= i < |g.edges| => g.edges[i].(source := g.edges[i].target, target := g.edges[i].source)))
  }

  lemma FlippedEdge(g: Graph, a: Id, b: Id)
    ensures HasEdge(Flipped(g), a, b) <==> HasEdge(g, b, a)
  {
    var f := Flipped(g);
    if HasEdge(g, b, a) {
      var i :| 0 <= i < |g.edges| && g.edges[i].source == b && g.edges[i].target == a;
      assert f.edges[i].source == a && f.edges[i].target == b;
    }
  }

  function Backwards(p: seq<Id>): (r: seq<Id>)
    ensures |r| == |p| && forall i :: 0 <= i < |p| ==> r[i] == p[|p| - 1 - i]
  {
    if p == [] then [] else [p[|p| - 1]] + Backwards(p[..|p| - 1])
  }

  lemma FlippedPath(g: Graph, p: seq<Id>, a: Id, b: Id)
    requires PathFromTo(g, p, a, b)
    ensures PathFromTo(Flipped(g), Backwards(p), b, a)
  {
    var q := Backwards(p);
    forall i | 0 <= i < |q| - 1 ensures HasEdge(Flipped(g), q[i], q[i + 1]) {
      var j := |p| - 2 - i;
      assert HasEdge(g, p[j], p[j + 1]);
      FlippedEdge(g, p[j + 1], p[j]);
    }
  }

  // Walking backwards from b finds a exactly when a path leads from a to b.
  lemma FlippedReaches(g: Graph, a: Id, b: Id)
    ensures Reaches(Flipped(g), b, a) <==> Reaches(g, a, b)
  {
    if Reaches(g, a, b) {
      var p :| PathFromTo(g, p, a, b);
      FlippedPath(g, p, a, b);
    }
    if Reaches(Flipped(g), b, a) {
      var p :| PathFromTo(Flipped(g), p, b, a);
      FlippedPath(Flipped(g), p, b, a);
      TwiceFlipped(g);
    }
  }

  lemma TwiceFlipped(g: Graph)
    ensures Flipped(Flipped(g)) == g
  {
    var f := Flipped(Flipped(g));
    assert forall i :: 0 <= i < |g.edges| ==> f.edges[i] == g.edges[i];
    assert f.edges == g.edges;
  }

  // ---------------------------------------------------------------- the rules

  ghost predicate DistinctEdges(d: Doc) {
    forall i, j :: 0 <= i < j < |d.edges| ==> d.edges[i].id != d.edges[j].id
  }

  // Every non-entry node has an edge in and every non-exit node an edge out.
  ghost predicate Connected(d: Doc) {
    forall n :: n in d.nodes ==> (n != d.entry ==> HasIncoming(d, n)) && (n != d.exit ==> HasOutgoing(d, n))
  }

  // Every route a branch declares is used by some edge.
  ghost predicate RoutesUsed(d: Doc) {
    forall n, r :: n in d.nodes && d.nodes[n].op.BranchOp? && r in RoutesOf(d.nodes[n].op) && r != "" ==> HasRouteEdge(d, n, r)
  }

  ghost predicate ReachableBothWays(d: Doc) {
    forall n :: n in d.nodes ==> AtOrReached(GraphOf(d), d.entry, n) && (n == d.exit || Reaches(GraphOf(d), n, d.exit))
  }

  // What the graph of an accepted definition is like.
  ghost predicate GraphRules(d: Doc) {
    d.entry in d.nodes && d.exit in d.nodes && DistinctEdges(d) && ValidEdges(d) && Connected(d) && Acyclic(GraphOf(d)) && RoutesUsed(d)
  }

  lemma RulesClosed(d: Doc)
    requires d.entry in d.nodes && ValidEdges(d)
    ensures Closed(GraphOf(d))
  {
    var g := GraphOf(d);
    forall i | 0 <= i < |g.edges| ensures g.edges[i].source in g.nodes && g.edges[i].target in g.nodes {
      assert ValidEdge(d, d.edges[i]);
    }
  }

  lemma GraphEdge(d: Doc, i: nat)
    requires i < |d.edges|
    ensures HasEdge(GraphOf(d), d.edges[i].source, d.edges[i].target)
  {
    assert GraphOf(d).edges[i] == EdgeOf(d.edges[i]);
  }

  // In an acyclic graph in which only the entry lacks an edge in, and only the exit an edge out, every
  // node lies on a way from the entry to the exit: the reachability checks can never fail alone.
  lemma ReachabilityFollows(d: Doc, order: seq<Id>)
    requires d.entry in d.nodes && d.exit in d.nodes && ValidEdges(d) && Connected(d) && IsTopological(GraphOf(d), order)
    ensures ReachableBothWays(d)
  {
    hide ValidEdges, IsTopological;
    var g := GraphOf(d);
    forall n | n in d.nodes ensures AtOrReached(g, d.entry, n) && (n == d.exit || Reaches(g, n, d.exit)) {
      ListedAt(d, order, n);
      var k :| 0 <= k < |order| && order[k] == n;
      ReachedFromEntry(d, order, k);
      ReachesExit(d, order, k);
    }
  }

  lemma ListedAt(d: Doc, order: seq<Id>, n: Id)
    requires IsTopological(GraphOf(d), order)
    ensures n in d.nodes <==> n in order
  {
    assert n in Elements(order) <==> n in order;
  }

  // The positions of the ends of edge i.
  lemma EndsOf(d: Doc, order: seq<Id>, i: nat) returns (j: nat, k: nat)
    requires d.entry in d.nodes && ValidEdges(d) && IsTopological(GraphOf(d), order) && i < |d.edges|
    ensures j < k < |order| && order[j] == d.edges[i].source && order[k] == d.edges[i].target
  {
    hide ValidEdges;
    RulesClosed(d);
    assert GraphOf(d).edges[i] == EdgeOf(d.edges[i]);
    EdgePointsForward(GraphOf(d), order, i);
    j, k := Position(order, d.edges[i].source), Position(order, d.edges[i].target);
  }

  lemma OncePlaced(d: Doc, order: seq<Id>, j: nat, k: nat)
    requires IsTopological(GraphOf(d), order) && j < |order| && k < |order| && order[j] == order[k]
    ensures j == k
  {
  }

  lemma {:induction false} ReachedFromEntry(d: Doc, order: seq<Id>, k: nat)
    requires d.entry in d.nodes && ValidEdges(d) && Connected(d) && IsTopological(GraphOf(d), order) && k < |order|
    ensures AtOrReached(GraphOf(d), d.entry, order[k])
    decreases k
  {
    hide ValidEdges, IsTopological;
    ListedAt(d, order, order[k]);
    if order[k] != d.entry {
      assert HasIncoming(d, order[k]);
      var i :| 0 <= i < |d.edges| && d.edges[i].target == order[k];
      var j, l := EndsOf(d, order, i);
      OncePlaced(d, order, k, l);
      ReachedFromEntry(d, order, j);
      GraphEdge(d, i);
      ReachedStep(GraphOf(d), d.entry, order[j], order[k]);
    }
  }

  lemma {:induction false} ReachesExit(d: Doc, order: seq<Id>, k: nat)
    requires d.entry in d.nodes && ValidEdges(d) && Connected(d) && IsTopological(GraphOf(d), order) && k < |order|
    ensures order[k] == d.exit || Reaches(GraphOf(d), order[k], d.exit)
    decreases |order| - k
  {
    hide ValidEdges, IsTopological;
    ListedAt(d, order, order[k]);
    if order[k] != d.exit {
      assert HasOutgoing(d, order[k]);
      var i :| 0 <= i < |d.edges| && d.edges[i].source == order[k];
      var j, l := EndsOf(d, order, i);
      OncePlaced(d, order, k, j);
      ReachesExit(d, order, l);
      GraphEdge(d, i);
      if order[l] == d.exit {
        EdgeReaches(GraphOf(d), order[k], d.exit);
      } else {
        ReachesStep(GraphOf(d), order[k], order[l], d.exit);
      }
    }
  }

  // ---------------------------------------------------------------- the checks

  method CheckEdges(d: Doc) returns (ok: bool)
    ensures ok <==> DistinctEdges(d) && ValidEdges(d)
  {
    var ids: set<Id> := {};
    ok := true;
    for i := 0 to |d.edges|
      invariant ids == set k | 0 <= k < i :: d.edges[k].id
      invariant forall j, k :: 0 <= j < k < i ==> d.edges[j].id != d.edges[k].id
      invariant forall k :: 0 <= k < i ==> ValidEdge(d, d.edges[k])
    {
      var l := d.edges[i];
      if l.id in ids {
        assert exists k :: 0 <= k < i && d.edges[k].id == d.edges[i].id;
        return false;
      }
      if l.source !in d.nodes || l.target !in d.nodes || l.target == d.entry || l.source == d.exit {
        assert !ValidEdge(d, d.edges[i]);
        return false;
      }
      if d.nodes[l.source].op.BranchOp? {
        if !l.activation.OnRoute? || l.activation.route !in RoutesOf(d.nodes[l.source].op) {
          assert !ValidEdge(d, d.edges[i]);
          return false;
        }
      } else if !l.activation.Always? {
        assert !ValidEdge(d, d.edges[i]);
        return false;
      }
      ids := ids + {l.id};
    }
  }

  method CheckConnected(d: Doc) returns (ok: bool)
    ensures ok <==> Connected(d)
  {
    var rest := d.nodes.Keys;
    while rest != {}
      invariant rest <= d.nodes.Keys
      invariant forall n :: n in d.nodes && n !in rest ==> (n != d.entry ==> HasIncoming(d, n)) && (n != d.exit ==> HasOutgoing(d, n))
      decreases |rest|
    {
      var n :| n in rest;
      var incoming, outgoing := false, false;
      for i := 0 to |d.edges|
        invariant incoming <==> exists k :: 0 <= k < i && d.edges[k].target == n
        invariant outgoing <==> exists k :: 0 <= k < i && d.edges[k].source == n
      {
        incoming := incoming || d.edges[i].target == n;
        outgoing := outgoing || d.edges[i].source == n;
      }
      assert incoming == HasIncoming(d, n) && outgoing == HasOutgoing(d, n);
      if (n != d.entry && !incoming) || (n != d.exit && !outgoing) { return false; }
      rest := rest - {n};
    }
    return true;
  }

  // Marks the declared routes that an edge of the branch uses.
  method CheckRoutes(d: Doc, n: Id) returns (ok: bool)
    requires n in d.nodes && d.nodes[n].op.BranchOp?
    ensures ok <==> forall r :: r in RoutesOf(d.nodes[n].op) && r != "" ==> HasRouteEdge(d, n, r)
  {
    var used: set<string> := {};
    for i := 0 to |d.edges|
      invariant used == set k | 0 <= k < i && d.edges[k].source == n && d.edges[k].activation.OnRoute? :: d.edges[k].activation.route
    {
      if d.edges[i].source == n && d.edges[i].activation.OnRoute? {
        used := used + {d.edges[i].activation.route};
      }
    }
    assert forall r :: r in used <==> HasRouteEdge(d, n, r);
    var routes := RoutesOf(d.nodes[n].op);
    for i := 0 to |routes|
      invariant forall k :: 0 <= k < i && routes[k] != "" ==> HasRouteEdge(d, n, routes[k])
    {
      if routes[i] != "" && routes[i] !in used {
        assert routes[i] in routes;
        return false;
      }
    }
    return true;
  }

  method CheckBranches(d: Doc) returns (ok: bool)
    ensures ok <==> RoutesUsed(d)
  {
    var rest := d.nodes.Keys;
    while rest != {}
      invariant rest <= d.nodes.Keys
      invariant forall n, r :: n in d.nodes && n !in rest && d.nodes[n].op.BranchOp? && r in RoutesOf(d.nodes[n].op) && r != "" ==> HasRouteEdge(d, n, r)
      decreases |rest|
    {
      hide HasRouteEdge, RoutesOf;
      var n :| n in rest;
      if d.nodes[n].op.BranchOp? {
        var used := CheckRoutes(d, n);
        if !used { return false; }
      }
      rest := rest - {n};
    }
    return true;
  }

  method CheckReachable(d: Doc) returns (ok: bool)
    ensures ok <==> ReachableBothWays(d)
  {
    var g := GraphOf(d);
    var fromEntry := ReachableNodes(g, d.entry);
    var toExit := ReachableNodes(Flipped(g), d.exit);
    forall n ensures n in toExit <==> n == d.exit || Reaches(g, n, d.exit) {
      FlippedReaches(g, n, d.exit);
    }
    ok := d.nodes.Keys <= fromEntry && d.nodes.Keys <= toExit;
  }

  // The contract accepts the graph of a definition exactly when it follows the rules; a cycle is found by
  // whether the sort lists every node.
  method ValidateGraph(d: Doc) returns (ok: bool)
    ensures ok <==> GraphRules(d)
    ensures ok ==> ReachableBothWays(d)
  {
    hide DistinctEdges, ValidEdges, Connected, RoutesUsed, ReachableBothWays;
    if d.entry !in d.nodes || d.exit !in d.nodes { return false; }
    var edges := CheckEdges(d);
    if !edges { return false; }
    var connected := CheckConnected(d);
    if !connected { return false; }
    RulesClosed(d);
    var order := ControlGraph.TopologicalOrder(GraphOf(d));
    if |order| != |d.nodes.Keys| { return false; }
    ReachabilityFollows(d, order);
    var reachable := CheckReachable(d);
    if !reachable { return false; }
    ok := CheckBranches(d);
  }

  // What remains of the contract: each node by itself.
  ghost predicate NodeRules(d: Doc, n: Id)
    requires n in d.nodes
  {
    var def := d.nodes[n];
    && n != "" && (def.op.StartOp? <==> n == d.entry) && (def.op.EndOp? <==> n == d.exit)
    && (forall k :: k in def.inputs ==> ValidBinding(d, def.inputs[k]))
    && (match def.op
        case StartOp => def.inputs == map[] && def.outputs == map["workflow_input" := TObject]
        case EndOp => def.outputs == map[] && "workflow_output" in def.inputs && def.inputs["workflow_output"].dataType.TObject?
        case BranchOp(cases, fallback) => def.outputs == map[] && "value" in def.inputs && "" !in RoutesOf(def.op)
        case TaskOp => def.policy.maxAttempts >= 1 && def.policy.delay >= 1)
  }

  // A graph that passes the check and nodes that follow their own rules make a definition the engine runs.
  lemma RulesMakeValid(d: Doc)
    requires GraphRules(d) && forall n :: n in d.nodes ==> NodeRules(d, n)
    ensures ValidDoc(d)
  {
    hide IsTopological, ValidNode, NodeRules, ValidEdges, Connected, RoutesUsed, DistinctEdges, Acyclic, Closed;
    RulesClosed(d);
    var order := ControlGraph.OrderExtends(GraphOf(d), []);
    forall n | n in d.nodes ensures ValidNode(d, n) {
      NodeIsValid(d, n);
    }
  }

  lemma NodeIsValid(d: Doc, n: Id)
    requires n in d.nodes && NodeRules(d, n) && Connected(d) && RoutesUsed(d)
    ensures ValidNode(d, n)
  {
    hide ValidBinding, HasIncoming, HasOutgoing, HasRouteEdge;
    if d.nodes[n].op.BranchOp? {
      forall r | r in RoutesOf(d.nodes[n].op) ensures r != "" && HasRouteEdge(d, n, r) {}
    }
  }
}
