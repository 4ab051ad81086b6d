/**
 Translating an editable workflow to the definition the engine runs: ids are replaced by
 deterministic execution ids, lists are sorted, and what the static check promised of the editable
 graph holds of the compiled one.
 */
module Compile {
  import opened Ids
  import opened Json
  import opened Graphs
  import opened Workflow
  import DataBindings
  import Decision
  import ControlGraph
  import Descendants
  import DefinitionGraph
  import EngineProgress

  // def is what the node's handler makes of it, with references still by logical id.
  datatype IrNode = IrNode(id: Id, def: NodeDef)

  datatype IrDoc = IrDoc(nodes: seq<IrNode>, edges: seq<Edge>, start: Id, end: Id)

  // The execution ids of nodes and of edges.
  datatype Naming = Naming(node: Id -> Id, edge: Id -> Id)

  datatype Product = Product(doc: Doc, nodeSources: map<Id, Id>, edgeSources: map<Id, Id>)

  // ---------------------------------------------------------------- the editable graph

  ghost predicate DistinctIds(ir: IrDoc) {
    && (forall i, j :: 0 <= i < j < |ir.nodes| ==> ir.nodes[i].id != ir.nodes[j].id)
    && (forall i, j :: 0 <= i < j < |ir.edges| ==> ir.edges[i].id != ir.edges[j].id)
  }

  function NodeIds(ir: IrDoc): set<Id> {
    set n | n in ir.nodes :: n.id
  }

  function BranchIds(ir: IrDoc): set<Id> {
    set n | n in ir.nodes && n.def.op.BranchOp? :: n.id
  }

  function GraphOfIr(ir: IrDoc): Graph {
    Graph(NodeIds(ir), ir.edges, BranchIds(ir), ir.start)
  }

  // Structurally valid documents: distinct ids, and edges between nodes of the document.
  ghost predicate Structured(ir: IrDoc) {
    DistinctIds(ir) && Closed(GraphOfIr(ir)) && ir.end in NodeIds(ir)
  }

  // The routes each branch declares, sorted and without repetition.
  ghost predicate IsDomains(ir: IrDoc, domains: map<Id, seq<Route>>) {
    forall n :: n in ir.nodes && n.def.op.BranchOp? ==> n.id in domains && IsDomain(n.def.op, domains[n.id])
  }

  ghost predicate IsDomain(op: Operation, domain: seq<Route>)
    requires op.BranchOp?
  {
    Ascending(domain) && Elements(domain) == Elements(RoutesOf(op))
  }

  // ---------------------------------------------------------------- translation

  predicate NodesCollide(ir: IrDoc, names: Naming) {
    exists i, j :: 0 <= i < |ir.nodes| && 0 <= j < |ir.nodes| && ir.nodes[i].id != ir.nodes[j].id && names.node(ir.nodes[i].id) == names.node(ir.nodes[j].id)
  }

  predicate EdgesCollide(ir: IrDoc, names: Naming) {
    exists i, j :: 0 <= i < |ir.edges| && 0 <= j < |ir.edges| && ir.edges[i].id != ir.edges[j].id && names.edge(ir.edges[i].id) == names.edge(ir.edges[j].id)
  }

  function RenamedBinding(b: Binding, names: Naming): Binding {
    match b
    case Literal(_, _) => b
    case FromOutput(t, m, name) => FromOutput(t, names.node(m), name)
  }

  function Renamed(def: NodeDef, names: Naming): NodeDef {
    def.(inputs := map k | k in def.inputs :: RenamedBinding(def.inputs[k], names))
  }

  function LinkOf(ir: IrDoc, names: Naming, e: Edge): Link {
    Link(names.edge(e.id), names.node(e.source), names.node(e.target), if e.source in BranchIds(ir) then OnRoute(e.route) else Always)
  }

  ghost predicate SortedLinks(s: seq<Link>) {
    forall i, j :: 0 <= i < j < |s| ==> Lt(s[i].id, s[j].id)
  }

  // What a compiled definition is, in terms of the document alone.
  ghost predicate IsCompiled(ir: IrDoc, names: Naming, p: Product) {
    && p.doc.entry == names.node(ir.start) && p.doc.exit == names.node(ir.end)
    && (forall x :: x in p.doc.nodes <==> exists n :: n in ir.nodes && names.node(n.id) == x)
    && (forall n :: n in ir.nodes ==> names.node(n.id) in p.doc.nodes && p.doc.nodes[names.node(n.id)] == Renamed(n.def, names))
    && SortedLinks(p.doc.edges)
    && (forall l :: l in p.doc.edges <==> exists e :: e in ir.edges && LinkOf(ir, names, e) == l)
    && p.nodeSources.Keys == p.doc.nodes.Keys && (forall n :: n in ir.nodes ==> names.node(n.id) in p.nodeSources && p.nodeSources[names.node(n.id)] == n.id)
    && (forall x :: x in p.edgeSources <==> exists e :: e in ir.edges && names.edge(e.id) == x)
    && (forall e :: e in ir.edges ==> names.edge(e.id) in p.edgeSources && p.edgeSources[names.edge(e.id)] == e.id)
  }

  // ---------------------------------------------------------------- the order of the lists does not matter

  ghost predicate SameContents(ir: IrDoc, other: IrDoc) {
    && ir.start == other.start && ir.end == other.end
    && (forall n :: n in ir.nodes <==> n in other.nodes) && (forall e :: e in ir.edges <==> e in other.edges)
  }

  lemma {:induction false} SortedLinksUnique(s: seq<Link>, t: seq<Link>)
    requires SortedLinks(s) && SortedLinks(t) && forall l :: l in s <==> l in t
    ensures s == t
  {
    assert |s| > 0 ==> s[0] in s;
    assert |t| > 0 ==> t[0] in t;
    if s != [] {
      if t == [] { return; }
      var i :| 0 <= i < |t| && t[i] == s[0];
      var j :| 0 <= j < |s| && s[j] == t[0];
      if i > 0 && j > 0 { LeAntisymmetric(s[0].id, t[0].id); }
      assert s[0] == t[0];
      forall l ensures l in s[1..] <==> l in t[1..] {
        TailHas(s, l);
        TailHas(t, l);
      }
      SortedLinksUnique(s[1..], t[1..]);
      assert s == [s[0]] + s[1..] && t == [t[0]] + t[1..];
    }
  }

  lemma TailHas(s: seq<Link>, l: Link)
    requires SortedLinks(s) && s != []
    ensures l in s[1..] <==> l in s && l != s[0]
  {
    if l in s[1..] {
      var i :| 0 <= i < |s| - 1 && s[1..][i] == l;
      assert s[i + 1] == l;
    }
    if l in s && l != s[0] {
      var i :| 0 <= i < |s| && s[i] == l;
      assert s[1..][i - 1] == l;
    }
  }

  lemma SameBranches(ir: IrDoc, other: IrDoc)
    requires SameContents(ir, other)
    ensures BranchIds(ir) == BranchIds(other)
  {
  }

  // Reordering the node and edge lists compiles to the same definition and the same source maps.
  lemma OrderDoesNotMatter(ir: IrDoc, other: IrDoc, names: Naming, p: Product, q: Product)
    requires SameContents(ir, other) && IsCompiled(ir, names, p) && IsCompiled(other, names, q)
    ensures p == q
  {
    SameBranches(ir, other);
    hide Renamed, BranchIds;
    assert p.doc.nodes == q.doc.nodes by {
      forall x | x in p.doc.nodes ensures x in q.doc.nodes && p.doc.nodes[x] == q.doc.nodes[x] && p.nodeSources[x] == q.nodeSources[x] {
        var n :| n in ir.nodes && names.node(n.id) == x;
      }
      forall x | x in q.doc.nodes ensures x in p.doc.nodes {
        var n :| n in other.nodes && names.node(n.id) == x;
      }
    }
    SameLinks(ir, other, names, p, q);
    SameSources(ir, other, names, p, q);
  }

  lemma SameLink(ir: IrDoc, other: IrDoc, names: Naming, e: Edge)
    requires BranchIds(ir) == BranchIds(other)
    ensures LinkOf(ir, names, e) == LinkOf(other, names, e)
  {
  }

  lemma SameLinks(ir: IrDoc, other: IrDoc, names: Naming, p: Product, q: Product)
    requires SameContents(ir, other) && IsCompiled(ir, names, p) && IsCompiled(other, names, q) && BranchIds(ir) == BranchIds(other)
    ensures p.doc.edges == q.doc.edges
  {
    hide Renamed, LinkOf, SortedLinks;
    forall l ensures l in p.doc.edges <==> l in q.doc.edges {
      if l in p.doc.edges {
        var e :| e in ir.edges && LinkOf(ir, names, e) == l;
        SameLink(ir, other, names, e);
      }
      if l in q.doc.edges {
        var e :| e in other.edges && LinkOf(other, names, e) == l;
        SameLink(ir, other, names, e);
      }
    }
    SortedLinksUnique(p.doc.edges, q.doc.edges);
  }

  lemma SameSources(ir: IrDoc, other: IrDoc, names: Naming, p: Product, q: Product)
    requires SameContents(ir, other) && IsCompiled(ir, names, p) && IsCompiled(other, names, q)
    ensures p.nodeSources == q.nodeSources && p.edgeSources == q.edgeSources
  {
    hide Renamed, LinkOf, SortedLinks;
    forall x | x in p.nodeSources ensures x in q.nodeSources && p.nodeSources[x] == q.nodeSources[x] {
      var n :| n in ir.nodes && names.node(n.id) == x;
    }
    forall x | x in q.nodeSources ensures x in p.nodeSources {
      var n :| n in other.nodes && names.node(n.id) == x;
    }
    forall x | x in p.edgeSources ensures x in q.edgeSources && p.edgeSources[x] == q.edgeSources[x] {
      var e :| e in ir.edges && names.edge(e.id) == x;
    }
    forall x | x in q.edgeSources ensures x in p.edgeSources {
      var e :| e in other.edges && names.edge(e.id) == x;
    }
  }

  // ---------------------------------------------------------------- renaming a graph

  // Edge f is edge e renamed; the route matters for branches only.
  ghost predicate Image(g: Graph, x: Id -> Id, e: Edge, f: Edge) {
    f.source == x(e.source) && f.target == x(e.target) && (e.source in g.branches ==> f.route == e.route)
  }

  // h is g with every node renamed by x, and nothing else: an isomorphism of control graphs.
  ghost predicate IsRenaming(g: Graph, h: Graph, x: Id -> Id) {
    && Closed(g) && h.start == x(g.start)
    && (forall a, b :: a in g.nodes && b in g.nodes && x(a) == x(b) ==> a == b)
    && (forall a :: a in g.nodes ==> x(a) in h.nodes && (x(a) in h.branches <==> a in g.branches))
    && (forall b :: b in h.nodes ==> exists a :: a in g.nodes && x(a) == b)
    && NoEdgeLost(g, h, x) && NoEdgeAdded(g, h, x)
  }

  ghost predicate NoEdgeLost(g: Graph, h: Graph, x: Id -> Id) {
    forall e :: e in g.edges ==> exists f :: f in h.edges && Image(g, x, e, f)
  }

  ghost predicate NoEdgeAdded(g: Graph, h: Graph, x: Id -> Id) {
    forall f :: f in h.edges ==> exists e :: e in g.edges && Image(g, x, e, f)
  }

  lemma EdgeForward(g: Graph, h: Graph, x: Id -> Id, e: Edge) returns (f: Edge)
    requires IsRenaming(g, h, x) && e in g.edges
    ensures f in h.edges && Image(g, x, e, f) && e.source in g.nodes && e.target in g.nodes
  {
    hide NoEdgeAdded;
    f :| f in h.edges && Image(g, x, e, f);
    var i :| 0 <= i < |g.edges| && g.edges[i] == e;
  }

  lemma EdgeBack(g: Graph, h: Graph, x: Id -> Id, f: Edge) returns (e: Edge)
    requires IsRenaming(g, h, x) && f in h.edges
    ensures e in g.edges && Image(g, x, e, f) && e.source in g.nodes && e.target in g.nodes
  {
    hide NoEdgeLost;
    e :| e in g.edges && Image(g, x, e, f);
    var i :| 0 <= i < |g.edges| && g.edges[i] == e;
  }

  lemma NodeRenamed(g: Graph, h: Graph, x: Id -> Id, a: Id)
    requires IsRenaming(g, h, x) && a in g.nodes
    ensures x(a) in h.nodes && (x(a) in h.branches <==> a in g.branches) && h.start == x(g.start) && (x(a) == h.start ==> a == g.start)
  {
  }

  lemma Injective(g: Graph, h: Graph, x: Id -> Id, a: Id, b: Id)
    requires IsRenaming(g, h, x) && a in g.nodes && b in g.nodes && x(a) == x(b)
    ensures a == b
  {
  }

  lemma RenamedPath(g: Graph, h: Graph, x: Id -> Id, a: Id, b: Id)
    requires IsRenaming(g, h, x) && HasEdge(g, a, b)
    ensures HasEdge(h, x(a), x(b)) && a in g.nodes && b in g.nodes
  {
    hide IsRenaming;
    var i :| 0 <= i < |g.edges| && g.edges[i].source == a && g.edges[i].target == b;
    var f := EdgeForward(g, h, x, g.edges[i]);
    var j :| 0 <= j < |h.edges| && h.edges[j] == f;
  }

  // A path keeps leading from one end to the other.
  lemma {:induction false} RenamedReaches(g: Graph, h: Graph, x: Id -> Id, p: seq<Id>, k: nat)
    requires IsRenaming(g, h, x) && IsPath(g, p) && 0 < k < |p|
    ensures Reaches(h, x(p[0]), x(p[k]))
  {
    hide IsRenaming;
    assert HasEdge(g, p[k - 1], p[k]);
    RenamedPath(g, h, x, p[k - 1], p[k]);
    if k == 1 {
      EdgeReaches(h, x(p[0]), x(p[1]));
    } else {
      RenamedReaches(g, h, x, p, k - 1);
      ReachesThenEdge(h, x(p[0]), x(p[k - 1]), x(p[k]));
    }
  }

  lemma ReachesThenEdge(g: Graph, a: Id, b: Id, c: Id)
    requires Reaches(g, a, b) && HasEdge(g, b, c)
    ensures Reaches(g, a, c)
  {
    var p :| PathFromTo(g, p, a, b);
    var q := p + [c];
    forall i | 0 <= i < |q| - 1 ensures HasEdge(g, q[i], q[i + 1]) {
      if i < |p| - 1 { assert HasEdge(g, p[i], p[i + 1]); }
    }
    assert PathFromTo(g, q, a, c);
  }

  // The routings agree on the branches.
  ghost predicate SameChoice(g: Graph, x: Id -> Id, r: Routing, q: Routing) {
    forall b :: b in g.branches && b in g.nodes ==> q(x(b)) == r(b)
  }

  lemma {:induction false} LiveInRenaming(g: Graph, h: Graph, x: Id -> Id, p: seq<Edge>, n: Id, r: Routing, q: Routing)
    requires IsRenaming(g, h, x) && SameChoice(g, x, r, q) && LivePath(g, p, n, r) && n in g.nodes
    ensures Active(h, x(n), q)
    decreases |p|
  {
    hide IsRenaming;
    NodeRenamed(g, h, x, n);
    if p == [] {
      StartIsActive(h, q);
    } else {
      var e := p[|p| - 1];
      var f := EdgeForward(g, h, x, e);
      NodeRenamed(g, h, x, e.source);
      LiveInRenaming(g, h, x, p[..|p| - 1], e.source, r, q);
      ExtendsActive(h, f, q);
    }
  }

  lemma ExtendsActive(g: Graph, e: Edge, r: Routing)
    requires e in g.edges && Taken(g, e, r) && Active(g, e.source, r)
    ensures Active(g, e.target, r)
  {
    var p :| LivePath(g, p, e.source, r);
    assert (p + [e])[..|p|] == p;
    assert LivePath(g, p + [e], e.target, r);
  }

  lemma {:induction false} LiveBeforeRenaming(g: Graph, h: Graph, x: Id -> Id, p: seq<Edge>, n: Id, r: Routing, q: Routing)
    requires IsRenaming(g, h, x) && SameChoice(g, x, r, q) && n in g.nodes && LivePath(h, p, x(n), q)
    ensures Active(g, n, r)
    decreases |p|
  {
    hide IsRenaming;
    NodeRenamed(g, h, x, n);
    if p == [] {
      StartIsActive(g, r);
    } else {
      var f := p[|p| - 1];
      var e := EdgeBack(g, h, x, f);
      Injective(g, h, x, e.target, n);
      NodeRenamed(g, h, x, e.source);
      LiveBeforeRenaming(g, h, x, p[..|p| - 1], e.source, r, q);
      ExtendsActive(g, e, r);
    }
  }

  lemma ActiveRenamed(g: Graph, h: Graph, x: Id -> Id, n: Id, r: Routing, q: Routing)
    requires IsRenaming(g, h, x) && SameChoice(g, x, r, q) && n in g.nodes
    ensures Active(g, n, r) <==> Active(h, x(n), q)
  {
    hide IsRenaming;
    if Active(g, n, r) {
      var p :| LivePath(g, p, n, r);
      LiveInRenaming(g, h, x, p, n, r, q);
    }
    if Active(h, x(n), q) {
      var p :| LivePath(h, p, x(n), q);
      LiveBeforeRenaming(g, h, x, p, n, r, q);
    }
  }

  // The branches declare the same routes under both names.
  ghost predicate SameDomains(g: Graph, x: Id -> Id, domains: map<Id, seq<Route>>, renamed: map<Id, seq<Route>>) {
    forall b :: b in g.nodes && b in g.branches ==> b in domains && x(b) in renamed && Elements(renamed[x(b)]) == Elements(domains[b])
  }

  // A reference that is safe stays safe under renaming.
  lemma SafeRenamed(g: Graph, h: Graph, x: Id -> Id, domains: map<Id, seq<Route>>, renamed: map<Id, seq<Route>>, target: Id, source: Id)
    requires IsRenaming(g, h, x) && SameDomains(g, x, domains, renamed) && DataBindings.Safe(g, domains, DataBindings.Ref(target, source))
    ensures DataBindings.Safe(h, renamed, DataBindings.Ref(x(target), x(source)))
  {
    hide IsRenaming, SameDomains, Active, IsPath, HasEdge;
    PathRenamed(g, h, x, source, target);
    NodeRenamed(g, h, x, source);
    NodeRenamed(g, h, x, target);
    forall q: Routing | DataBindings.Legal(h, renamed, q) && Active(h, x(target), q) ensures Active(h, x(source), q) {
      SafeUnder(g, h, x, domains, renamed, target, source, q);
    }
  }

  lemma PathRenamed(g: Graph, h: Graph, x: Id -> Id, a: Id, b: Id)
    requires IsRenaming(g, h, x) && Reaches(g, a, b)
    ensures Reaches(h, x(a), x(b)) && a in g.nodes && b in g.nodes
  {
    hide IsRenaming;
    var p :| PathFromTo(g, p, a, b);
    RenamedReaches(g, h, x, p, |p| - 1);
    RenamedPath(g, h, x, p[0], p[1]);
    RenamedPath(g, h, x, p[|p| - 2], p[|p| - 1]);
  }

  lemma SafeUnder(g: Graph, h: Graph, x: Id -> Id, domains: map<Id, seq<Route>>, renamed: map<Id, seq<Route>>, target: Id, source: Id, q: Routing)
    requires IsRenaming(g, h, x) && SameDomains(g, x, domains, renamed) && DataBindings.Safe(g, domains, DataBindings.Ref(target, source))
    requires target in g.nodes && source in g.nodes && DataBindings.Legal(h, renamed, q) && Active(h, x(target), q)
    ensures Active(h, x(source), q)
  {
    hide IsRenaming, SameDomains, Active, DataBindings.Safe, DataBindings.Legal, SameChoice;
    var r := RoutingBefore(g, h, x, domains, renamed, q);
    ActiveRenamed(g, h, x, target, r, q);
    SafeMeans(g, domains, target, source, r);
    ActiveRenamed(g, h, x, source, r, q);
  }

  lemma RoutingBefore(g: Graph, h: Graph, x: Id -> Id, domains: map<Id, seq<Route>>, renamed: map<Id, seq<Route>>, q: Routing) returns (r: Routing)
    requires IsRenaming(g, h, x) && SameDomains(g, x, domains, renamed) && DataBindings.Legal(h, renamed, q)
    ensures DataBindings.Legal(g, domains, r) && SameChoice(g, x, r, q)
  {
    hide IsRenaming, SameDomains, DataBindings.Legal;
    r := (b: Id) => q(x(b));
    LegalBefore(g, h, x, domains, renamed, r, q);
  }

  lemma SafeMeans(g: Graph, domains: map<Id, seq<Route>>, target: Id, source: Id, r: Routing)
    requires DataBindings.Safe(g, domains, DataBindings.Ref(target, source)) && DataBindings.Legal(g, domains, r) && Active(g, target, r)
    ensures Active(g, source, r)
  {
  }

  lemma LegalBefore(g: Graph, h: Graph, x: Id -> Id, domains: map<Id, seq<Route>>, renamed: map<Id, seq<Route>>, r: Routing, q: Routing)
    requires IsRenaming(g, h, x) && SameDomains(g, x, domains, renamed) && DataBindings.Legal(h, renamed, q)
    requires forall b :: r(b) == q(x(b))
    ensures DataBindings.Legal(g, domains, r)
  {
    forall b | b in g.nodes * g.branches && b in domains && domains[b] != [] ensures r(b) in domains[b] {
      assert x(b) in h.nodes * h.branches;
      SameRoutes(renamed[x(b)], domains[b]);
    }
  }

  lemma SameRoutes(s: seq<Route>, t: seq<Route>)
    requires Elements(s) == Elements(t) && t != []
    ensures s != [] && forall r :: r in s ==> r in t
  {
    assert t[0] in Elements(s);
    forall r | r in s ensures r in t {
      assert r in Elements(t);
    }
  }

  // ---------------------------------------------------------------- compiled graphs

  lemma BranchesRenamed(ir: IrDoc, names: Naming, p: Product, a: Id)
    requires DistinctIds(ir) && !NodesCollide(ir, names) && IsCompiled(ir, names, p) && a in NodeIds(ir)
    ensures names.node(a) in p.doc.nodes && (p.doc.nodes[names.node(a)].op.BranchOp? <==> a in BranchIds(ir))
  {
    hide SortedLinks, LinkOf;
    var n :| n in ir.nodes && n.id == a;
    assert p.doc.nodes[names.node(a)] == Renamed(n.def, names);
    if a in BranchIds(ir) {
      var m :| m in ir.nodes && m.def.op.BranchOp? && m.id == a;
      SameNode(ir, n, m);
    }
  }

  lemma SameNode(ir: IrDoc, n: IrNode, m: IrNode)
    requires DistinctIds(ir) && n in ir.nodes && m in ir.nodes && n.id == m.id
    ensures n == m
  {
    var i :| 0 <= i < |ir.nodes| && ir.nodes[i] == n;
    var j :| 0 <= j < |ir.nodes| && ir.nodes[j] == m;
  }

  // The compiled control graph is the editable one with other names.
  lemma CompiledGraph(ir: IrDoc, names: Naming, p: Product)
    requires Structured(ir) && !NodesCollide(ir, names) && IsCompiled(ir, names, p)
    ensures IsRenaming(GraphOfIr(ir), GraphOf(p.doc), names.node)
  {
    hide IsCompiled, NodesCollide, DistinctIds;
    var g, h, x := GraphOfIr(ir), GraphOf(p.doc), names.node;
    forall a, b | a in g.nodes && b in g.nodes && x(a) == x(b) ensures a == b {
      NoCollision(ir, names, a, b);
    }
    forall a | a in g.nodes ensures x(a) in h.nodes && (x(a) in h.branches <==> a in g.branches) {
      BranchesRenamed(ir, names, p, a);
    }
    forall b | b in h.nodes ensures exists a :: a in g.nodes && x(a) == b {
      NodeDecompiled(ir, names, p, b);
    }
    EdgesCompiled(ir, names, p);
    hide NoEdgeLost, NoEdgeAdded;
    EntryCompiled(ir, names, p);
  }

  lemma NodeDecompiled(ir: IrDoc, names: Naming, p: Product, b: Id)
    requires IsCompiled(ir, names, p) && b in GraphOf(p.doc).nodes
    ensures exists a :: a in NodeIds(ir) && names.node(a) == b
  {
    hide SortedLinks, Renamed, LinkOf;
    assert b in p.doc.nodes;
    var n :| n in ir.nodes && names.node(n.id) == b;
    assert n.id in NodeIds(ir);
  }

  lemma EdgesCompiled(ir: IrDoc, names: Naming, p: Product)
    requires IsCompiled(ir, names, p)
    ensures NoEdgeLost(GraphOfIr(ir), GraphOf(p.doc), names.node) && NoEdgeAdded(GraphOfIr(ir), GraphOf(p.doc), names.node)
  {
    hide IsCompiled;
    forall e | e in ir.edges ensures exists f :: f in GraphOf(p.doc).edges && Image(GraphOfIr(ir), names.node, e, f) {
      EdgeCompiled(ir, names, p, e);
    }
    forall f | f in GraphOf(p.doc).edges ensures exists e :: e in ir.edges && Image(GraphOfIr(ir), names.node, e, f) {
      EdgeDecompiled(ir, names, p, f);
    }
  }

  lemma EntryCompiled(ir: IrDoc, names: Naming, p: Product)
    requires IsCompiled(ir, names, p)
    ensures p.doc.entry == names.node(ir.start)
  {
  }

  lemma NoCollision(ir: IrDoc, names: Naming, a: Id, b: Id)
    requires !NodesCollide(ir, names) && a in NodeIds(ir) && b in NodeIds(ir) && names.node(a) == names.node(b)
    ensures a == b
  {
    var n :| n in ir.nodes && n.id == a;
    var m :| m in ir.nodes && m.id == b;
    var i :| 0 <= i < |ir.nodes| && ir.nodes[i] == n;
    var j :| 0 <= j < |ir.nodes| && ir.nodes[j] == m;
  }

  lemma EdgeCompiled(ir: IrDoc, names: Naming, p: Product, e: Edge)
    requires IsCompiled(ir, names, p) && e in ir.edges
    ensures exists f :: f in GraphOf(p.doc).edges && Image(GraphOfIr(ir), names.node, e, f)
  {
    hide SortedLinks, Renamed;
    var l := LinkOf(ir, names, e);
    assert l in p.doc.edges;
    var i :| 0 <= i < |p.doc.edges| && p.doc.edges[i] == l;
    assert GraphOf(p.doc).edges[i] == EdgeOf(l);
    assert Image(GraphOfIr(ir), names.node, e, EdgeOf(l));
  }

  lemma EdgeDecompiled(ir: IrDoc, names: Naming, p: Product, f: Edge)
    requires IsCompiled(ir, names, p) && f in GraphOf(p.doc).edges
    ensures exists e :: e in GraphOfIr(ir).edges && Image(GraphOfIr(ir), names.node, e, f)
  {
    hide SortedLinks, Renamed;
    var i :| 0 <= i < |GraphOf(p.doc).edges| && GraphOf(p.doc).edges[i] == f;
    assert p.doc.edges[i] in p.doc.edges && f == EdgeOf(p.doc.edges[i]);
    var e :| e in ir.edges && LinkOf(ir, names, e) == p.doc.edges[i];
    assert Image(GraphOfIr(ir), names.node, e, f);
  }

  // The data references of the document.
  ghost predicate RefsSafe(ir: IrDoc, domains: map<Id, seq<string>>) {
    forall n, k :: n in ir.nodes && k in n.def.inputs && n.def.inputs[k].FromOutput? ==>
      DataBindings.Safe(GraphOfIr(ir), domains, DataBindings.Ref(n.id, n.def.inputs[k].node))
  }

  lemma CompiledDomains(ir: IrDoc, names: Naming, p: Product, domains: map<Id, seq<string>>)
    requires Structured(ir) && !NodesCollide(ir, names) && IsCompiled(ir, names, p) && IsDomains(ir, domains)
    ensures SameDomains(GraphOfIr(ir), names.node, domains, DomainsOf(p.doc))
  {
    forall b | b in NodeIds(ir) && b in BranchIds(ir)
      ensures b in domains && names.node(b) in DomainsOf(p.doc) && Elements(DomainsOf(p.doc)[names.node(b)]) == Elements(domains[b])
    {
      var n :| n in ir.nodes && n.def.op.BranchOp? && n.id == b;
      assert p.doc.nodes[names.node(b)] == Renamed(n.def, names);
    }
  }

  // If the static check accepts the references of the editable workflow, those of the compiled definition
  // are safe: the engine then never meets one that does not resolve.
  lemma CompiledBindingsSafe(ir: IrDoc, names: Naming, p: Product, domains: map<Id, seq<string>>)
    requires Structured(ir) && !NodesCollide(ir, names) && IsCompiled(ir, names, p) && IsDomains(ir, domains) && RefsSafe(ir, domains)
    ensures SafeBindings(p.doc)
  {
    CompiledGraph(ir, names, p);
    CompiledDomains(ir, names, p, domains);
    forall x, k | x in p.doc.nodes && k in p.doc.nodes[x].inputs && p.doc.nodes[x].inputs[k].FromOutput?
      ensures DataBindings.Safe(GraphOf(p.doc), DomainsOf(p.doc), DataBindings.Ref(x, p.doc.nodes[x].inputs[k].node))
    {
      var n :| n in ir.nodes && names.node(n.id) == x;
      RenamedInput(n.def, names, k);
      hide IsRenaming, SameDomains, DataBindings.Safe, Structured, IsCompiled;
      SafeRenamed(GraphOfIr(ir), GraphOf(p.doc), names.node, domains, DomainsOf(p.doc), n.id, n.def.inputs[k].node);
    }
  }

  lemma RenamedInput(def: NodeDef, names: Naming, k: string)
    requires k in Renamed(def, names).inputs && Renamed(def, names).inputs[k].FromOutput?
    ensures k in def.inputs && def.inputs[k].FromOutput? && Renamed(def, names).inputs[k].node == names.node(def.inputs[k].node)
  {
  }

  // ---------------------------------------------------------------- the compiler's loops

  method BuildExecutionIds(ir: IrDoc, names: Naming) returns (collided: bool)
    ensures collided <==> NodesCollide(ir, names) || EdgesCollide(ir, names)
  {
    var nodes := SeenNodes(ir, names);
    var edges := SeenEdges(ir, names);
    collided := nodes || edges;
  }

  method SeenNodes(ir: IrDoc, names: Naming) returns (collided: bool)
    ensures collided <==> NodesCollide(ir, names)
  {
    collided := false;
    var seen: map<Id, Id> := map[];
    for i := 0 to |ir.nodes|
      invariant collided ==> NodesCollide(ir, names)
      invariant forall x :: x in seen ==> exists j :: 0 <= j < i && ir.nodes[j].id == seen[x] && names.node(seen[x]) == x
      invariant !collided ==> forall j :: 0 <= j < i ==> names.node(ir.nodes[j].id) in seen && seen[names.node(ir.nodes[j].id)] == ir.nodes[j].id
    {
      var id := ir.nodes[i].id;
      var x := names.node(id);
      if x in seen && seen[x] != id { collided := true; }
      seen := seen[x := id];
    }
  }

  method SeenEdges(ir: IrDoc, names: Naming) returns (collided: bool)
    ensures collided <==> EdgesCollide(ir, names)
  {
    collided := false;
    var seen: map<Id, Id> := map[];
    for i := 0 to |ir.edges|
      invariant collided ==> EdgesCollide(ir, names)
      invariant forall x :: x in seen ==> exists j :: 0 <= j < i && ir.edges[j].id == seen[x] && names.edge(seen[x]) == x
      invariant !collided ==> forall j :: 0 <= j < i ==> names.edge(ir.edges[j].id) in seen && seen[names.edge(ir.edges[j].id)] == ir.edges[j].id
    {
      var id := ir.edges[i].id;
      var x := names.edge(id);
      if x in seen && seen[x] != id { collided := true; }
      seen := seen[x := id];
    }
  }

  lemma FreshName(ir: IrDoc, names: Naming, i: nat)
    requires DistinctIds(ir) && !NodesCollide(ir, names) && i < |ir.nodes|
    ensures forall j :: 0 <= j < i ==> names.node(ir.nodes[j].id) != names.node(ir.nodes[i].id)
  {
  }

  method TranslateNodes(ir: IrDoc, names: Naming) returns (nodes: map<Id, NodeDef>, sources: map<Id, Id>)
    requires DistinctIds(ir) && !NodesCollide(ir, names)
    ensures sources.Keys == nodes.Keys && forall x :: x in nodes <==> exists n :: n in ir.nodes && names.node(n.id) == x
    ensures forall n :: n in ir.nodes ==> names.node(n.id) in nodes && nodes[names.node(n.id)] == Renamed(n.def, names) && sources[names.node(n.id)] == n.id
  {
    hide Renamed, DistinctIds, NodesCollide;
    nodes, sources := map[], map[];
    for i := 0 to |ir.nodes|
      invariant sources.Keys == nodes.Keys
      invariant forall x :: x in nodes ==> exists j :: 0 <= j < i && names.node(ir.nodes[j].id) == x
      invariant forall j :: 0 <= j < i ==> names.node(ir.nodes[j].id) in nodes
      invariant forall j :: 0 <= j < i ==> nodes[names.node(ir.nodes[j].id)] == Renamed(ir.nodes[j].def, names)
      invariant forall j :: 0 <= j < i ==> sources[names.node(ir.nodes[j].id)] == ir.nodes[j].id
    {
      var x := names.node(ir.nodes[i].id);
      FreshName(ir, names, i);
      nodes := nodes[x := Renamed(ir.nodes[i].def, names)];
      sources := sources[x := ir.nodes[i].id];
    }
  }

  method TranslateEdges(ir: IrDoc, names: Naming) returns (links: seq<Link>, sources: map<Id, Id>)
    requires DistinctIds(ir) && !EdgesCollide(ir, names)
    ensures |links| == |ir.edges| && forall i :: 0 <= i < |links| ==> links[i] == LinkOf(ir, names, ir.edges[i])
    ensures forall i, j :: 0 <= i < j < |links| ==> links[i].id != links[j].id
    ensures forall x :: x in sources <==> exists e :: e in ir.edges && names.edge(e.id) == x
    ensures forall e :: e in ir.edges ==> names.edge(e.id) in sources && sources[names.edge(e.id)] == e.id
  {
    links, sources := [], map[];
    for i := 0 to |ir.edges|
      invariant |links| == i && forall j :: 0 <= j < i ==> links[j] == LinkOf(ir, names, ir.edges[j])
      invariant forall x :: x in sources ==> exists j :: 0 <= j < i && names.edge(ir.edges[j].id) == x
      invariant forall j :: 0 <= j < i ==> names.edge(ir.edges[j].id) in sources && sources[names.edge(ir.edges[j].id)] == ir.edges[j].id
    {
      links := links + [LinkOf(ir, names, ir.edges[i])];
      sources := sources[names.edge(ir.edges[i].id) := ir.edges[i].id];
    }
  }

  // Puts l at its place among links sorted by id.
  function InsertLink(s: seq<Link>, l: Link): (r: seq<Link>)
    ensures forall k :: k in r <==> k in s || k == l
  {
    if s == [] || Le(l.id, s[0].id) then [l] + s
    else assert s == [s[0]] + s[1..]; [s[0]] + InsertLink(s[1..], l)
  }

  lemma {:induction false} InsertLinkSorted(s: seq<Link>, l: Link)
    requires SortedLinks(s) && forall i :: 0 <= i < |s| ==> s[i].id != l.id
    ensures SortedLinks(InsertLink(s, l))
  {
    if s == [] {
    } else if Le(l.id, s[0].id) {
      forall j | 0 <= j < |s| ensures Lt(l.id, s[j].id) {
        if j > 0 { LtTransitive(l.id, s[0].id, s[j].id); }
      }
    } else {
      InsertLinkSorted(s[1..], l);
      LeTotal(l.id, s[0].id);
      var rest := InsertLink(s[1..], l);
      forall j | 0 <= j < |rest| ensures Lt(s[0].id, rest[j].id) {
        assert rest[j] in rest;
      }
    }
  }

  method SortLinks(links: seq<Link>) returns (s: seq<Link>)
    requires forall i, j :: 0 <= i < j < |links| ==> links[i].id != links[j].id
    ensures SortedLinks(s) && forall l :: l in s <==> l in links
  {
    s := [];
    assert SortedLinks(s);
    hide SortedLinks, InsertLink;
    for i := 0 to |links|
      invariant SortedLinks(s) && forall l :: l in s <==> l in links[..i]
    {
      forall j | 0 <= j < |s| ensures s[j].id != links[i].id {
        assert s[j] in links[..i];
      }
      InsertLinkSorted(s, links[i]);
      s := InsertLink(s, links[i]);
    }
  }

  // Compiling reports an error exactly when two ids of the document get the same execution id.
  method CompileGraph(ir: IrDoc, names: Naming) returns (r: Option<Product>)
    requires DistinctIds(ir)
    ensures r.None? <==> NodesCollide(ir, names) || EdgesCollide(ir, names)
    ensures r.Some? ==> IsCompiled(ir, names, r.value)
  {
    hide NodesCollide, EdgesCollide, DistinctIds, Renamed, SortedLinks, LinkOf;
    var collided := BuildExecutionIds(ir, names);
    if collided { return None; }
    var nodes, nodeSources := TranslateNodes(ir, names);
    var links, edgeSources := TranslateEdges(ir, names);
    var edges := SortLinks(links);
    LinksListed(ir, names, links);
    r := Some(Product(Doc(names.node(ir.start), names.node(ir.end), nodes, edges), nodeSources, edgeSources));
  }

  lemma LinksListed(ir: IrDoc, names: Naming, links: seq<Link>)
    requires |links| == |ir.edges| && forall i :: 0 <= i < |links| ==> links[i] == LinkOf(ir, names, ir.edges[i])
    ensures forall l :: l in links <==> exists e :: e in ir.edges && LinkOf(ir, names, e) == l
  {
    hide LinkOf;
    forall l | l in links ensures exists e :: e in ir.edges && LinkOf(ir, names, e) == l {
      var i :| 0 <= i < |links| && links[i] == l;
      assert ir.edges[i] in ir.edges;
    }
    forall e | e in ir.edges ensures LinkOf(ir, names, e) in links {
      var i :| 0 <= i < |ir.edges| && ir.edges[i] == e;
      assert links[i] in links;
    }
  }

  // ---------------------------------------------------------------- the whole compiler

  datatype Outcome = Compiled(product: Product) | Rejected | TooComplex

  method BranchDomains(ir: IrDoc) returns (domains: map<Id, seq<Route>>)
    requires DistinctIds(ir)
    ensures IsDomains(ir, domains)
  {
    hide IsDomain, Ascending;
    domains := map[];
    for i := 0 to |ir.nodes|
      invariant forall j :: 0 <= j < i && ir.nodes[j].def.op.BranchOp? ==> ir.nodes[j].id in domains && IsDomain(ir.nodes[j].def.op, domains[ir.nodes[j].id])
    {
      var n := ir.nodes[i];
      if n.def.op.BranchOp? {
        var domain := DomainOf(n.def.op);
        domains := domains[n.id := domain];
      }
    }
  }

  method DomainOf(op: Operation) returns (domain: seq<Route>)
    requires op.BranchOp?
    ensures IsDomain(op, domain)
  {
    var routes := RoutesOf(op);
    domain := SortIds(set r | r in routes);
    assert Elements(routes) == set r | r in routes;
  }

  // Whether r is a data reference of one of the first count nodes.
  ghost predicate IsRef(ir: IrDoc, count: nat, r: DataBindings.Ref)
    requires count <= |ir.nodes|
  {
    exists i, k :: 0 <= i < count && k in ir.nodes[i].def.inputs && RefAt(ir.nodes[i], k, r)
  }

  ghost predicate RefAt(n: IrNode, k: string, r: DataBindings.Ref)
    requires k in n.def.inputs
  {
    n.def.inputs[k].FromOutput? && r == DataBindings.Ref(n.id, n.def.inputs[k].node)
  }

  method References(ir: IrDoc) returns (refs: seq<DataBindings.Ref>)
    ensures forall r :: r in refs <==> IsRef(ir, |ir.nodes|, r)
  {
    refs := [];
    for i := 0 to |ir.nodes|
      invariant forall r :: r in refs <==> IsRef(ir, i, r)
    {
      var more := ReferencesOf(ir.nodes[i]);
      refs := refs + more;
    }
  }

  method ReferencesOf(n: IrNode) returns (refs: seq<DataBindings.Ref>)
    ensures forall r :: r in refs <==> exists k :: k in n.def.inputs && RefAt(n, k, r)
  {
    refs := [];
    var rest := n.def.inputs.Keys;
    while rest != {}
      invariant rest <= n.def.inputs.Keys
      invariant forall r :: r in refs ==> exists k :: k in n.def.inputs && RefAt(n, k, r)
      invariant forall k :: k in n.def.inputs && k !in rest && n.def.inputs[k].FromOutput? ==> DataBindings.Ref(n.id, n.def.inputs[k].node) in refs
      decreases |rest|
    {
      var k :| k in rest;
      if n.def.inputs[k].FromOutput? {
        refs := refs + [DataBindings.Ref(n.id, n.def.inputs[k].node)];
      }
      rest := rest - {k};
    }
  }

  lemma AllRefsSafe(ir: IrDoc, domains: map<Id, seq<Route>>, refs: seq<DataBindings.Ref>)
    requires forall r :: r in refs <==> IsRef(ir, |ir.nodes|, r)
    ensures RefsSafe(ir, domains) <==> forall r :: r in refs ==> DataBindings.Safe(GraphOfIr(ir), domains, r)
  {
    hide DataBindings.Safe;
    forall n, k | n in ir.nodes && k in n.def.inputs && n.def.inputs[k].FromOutput?
      ensures DataBindings.Ref(n.id, n.def.inputs[k].node) in refs
    {
      var i :| 0 <= i < |ir.nodes| && ir.nodes[i] == n;
      assert RefAt(ir.nodes[i], k, DataBindings.Ref(n.id, n.def.inputs[k].node));
    }
  }

  lemma AllDeclared(ir: IrDoc, domains: map<Id, seq<Route>>, b: Id)
    requires IsDomains(ir, domains)
    ensures !DataBindings.Undeclared(GraphOfIr(ir), domains, b)
  {
    if b in BranchIds(ir) {
      var n :| n in ir.nodes && n.def.op.BranchOp? && n.id == b;
      assert RoutesOf(n.def.op)[0] in Elements(domains[b]);
    }
  }

  // The decision table of the check is full, so the branches have many combinations of routes.
  ghost predicate IsTooComplex(ir: IrDoc, domains: map<Id, seq<Route>>, table: seq<Decision.Node>) {
    && DataBindings.IsFull(GraphOfIr(ir), domains, table)
    && Decision.MAX_NODES <= Decision.Exp2(DataBindings.Combinations(GraphOfIr(ir), domains))
  }

  // The references of an acyclic document are all safe, or some is not, or the diagrams outgrew their bound.
  method CheckReferences(ir: IrDoc, domains: map<Id, seq<Route>>, order: seq<Id>) returns (safe: bool, exceeded: bool, ghost table: seq<Decision.Node>)
    requires Structured(ir) && IsTopological(GraphOfIr(ir), order) && IsDomains(ir, domains)
    ensures !exceeded ==> (safe <==> RefsSafe(ir, domains))
    ensures exceeded ==> IsTooComplex(ir, domains, table)
  {
    hide DataBindings.Safe, DataBindings.IsFull, IsDomains, IsRef, IsTopological, Descendants.IsAncestry, DistinctIds;
    var g := GraphOfIr(ir);
    var ancestry := Descendants.BuildDescendants(g, order);
    var refs := References(ir);
    var verdict: DataBindings.Verdict;
    verdict, table := DataBindings.ValidateDataBindings(g, order, ancestry, domains, refs);
    AllRefsSafe(ir, domains, refs);
    forall b ensures !DataBindings.Undeclared(g, domains, b) {
      AllDeclared(ir, domains, b);
    }
    exceeded := verdict.TooComplex?;
    safe := verdict.Checked? && verdict.unsafe == [];
    if verdict.Checked? && verdict.unsafe != [] {
      assert verdict.unsafe[0] in verdict.unsafe;
    }
  }

  // What an accepted workflow is: its compiled graph is the editable one renamed and follows the rules of
  // the contract, and every data reference is safe in both.
  ghost predicate IsAccepted(ir: IrDoc, names: Naming, p: Product) {
    && IsCompiled(ir, names, p) && IsRenaming(GraphOfIr(ir), GraphOf(p.doc), names.node)
    && SafeBindings(p.doc) && DefinitionGraph.GraphRules(p.doc)
  }

  // Why a workflow is refused.
  ghost predicate IsFaulty(ir: IrDoc, names: Naming, domains: map<Id, seq<Route>>) {
    || !Acyclic(GraphOfIr(ir)) || !RefsSafe(ir, domains) || NodesCollide(ir, names) || EdgesCollide(ir, names)
    || exists p :: IsCompiled(ir, names, p) && !DefinitionGraph.GraphRules(p.doc)
  }

  method CompileWorkflow(ir: IrDoc, names: Naming) returns (r: Outcome, domains: map<Id, seq<Route>>, ghost table: seq<Decision.Node>)
    requires Structured(ir)
    ensures IsDomains(ir, domains)
    ensures r.Compiled? ==> IsAccepted(ir, names, r.product) && Acyclic(GraphOfIr(ir)) && RefsSafe(ir, domains)
    ensures r.Rejected? ==> IsFaulty(ir, names, domains)
    ensures r.TooComplex? ==> IsTooComplex(ir, domains, table)
  {
    hide IsCompiled, IsRenaming, IsDomains, RefsSafe, IsTooComplex, DistinctIds, NodesCollide, EdgesCollide, Acyclic, IsTopological, SafeBindings, DefinitionGraph.GraphRules;
    var routes := BranchDomains(ir);
    domains := routes;
    var order := ControlGraph.TopologicalOrder(GraphOfIr(ir));
    table := [];
    if |order| != |NodeIds(ir)| { return Rejected, routes, table; }
    var safe, exceeded;
    safe, exceeded, table := CheckReferences(ir, routes, order);
    if exceeded { return TooComplex, routes, table; }
    if !safe { return Rejected, routes, table; }
    var product := CompileGraph(ir, names);
    if product.None? { return Rejected, routes, table; }
    var valid := DefinitionGraph.ValidateGraph(product.value.doc);
    if !valid { return Rejected, routes, table; }
    CompiledGraph(ir, names, product.value);
    CompiledBindingsSafe(ir, names, product.value, routes);
    r := Compiled(product.value);
  }

  // Definitions that leave the compiler, and whose nodes follow the rules of their operations, are accepted
  // by the engine: their runs always resolve their inputs and never get stuck.
  lemma CompiledRuns(ir: IrDoc, names: Naming, p: Product)
    requires IsAccepted(ir, names, p) && forall n :: n in p.doc.nodes ==> DefinitionGraph.NodeRules(p.doc, n)
    ensures EngineProgress.Accepted(p.doc)
  {
    hide IsCompiled, IsRenaming, SafeBindings, DefinitionGraph.NodeRules, ValidDoc;
    DefinitionGraph.RulesMakeValid(p.doc);
  }
}
