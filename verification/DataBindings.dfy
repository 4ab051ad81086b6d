/**
 The static check of data references: a node may read an output of another node only if that
 node lies upstream in the control graph and is active under every choice of branch routes
 that activates the reader.
 */
module DataBindings {
  import opened Ids
  import opened Graphs
  import opened Descendants
  import D = Decision

  // target reads an output of source.
  datatype Ref = Ref(target: Id, source: Id)

  datatype Verdict =
    | Checked(unsafe: seq<Ref>)
    | TooComplex            // the decision diagrams outgrew their bound
    | RouteDomainMissing    // a branch declares no route at all

  type Domains = map<Id, seq<Route>>

  // Every branch takes one of the routes it declares.
  ghost predicate Legal(g: Graph, domains: Domains, r: Routing) {
    forall b :: b in g.nodes * g.branches && b in domains && domains[b] != [] ==> r(b) in domains[b]
  }

  // A branch without any declared route.
  ghost predicate Undeclared(g: Graph, domains: Domains, b: Id) {
    b in g.branches && (b !in domains || domains[b] == [])
  }

  // What the check promises of a reference.
  ghost predicate Safe(g: Graph, domains: Domains, ref: Ref) {
    && ref.source in g.nodes && ref.target in g.nodes && Reaches(g, ref.source, ref.target)
    && forall r: Routing :: Legal(g, domains, r) && Active(g, ref.target, r) ==> Active(g, ref.source, r)
  }

  // ---------------------------------------------------------------- branch variables

  // The branches with a route domain, in topological order, numbered from zero.
  ghost predicate IsNumbering(g: Graph, domains: Domains, branches: seq<Id>) {
    && NoDuplicates(branches)
    && forall b :: b in branches <==> b in g.nodes * g.branches && b in domains && domains[b] != []
  }

  ghost predicate IsVariables(branches: seq<Id>, variables: map<Id, nat>) {
    && (forall k :: 0 <= k < |branches| ==> branches[k] in variables && variables[branches[k]] == k)
    && (forall b :: b in variables ==> variables[b] < |branches| && branches[variables[b]] == b)
  }

  function VariableDomains(domains: Domains, branches: seq<Id>): (r: seq<seq<Route>>)
    requires forall b :: b in branches ==> b in domains
    ensures |r| == |branches|
  {
    seq(|branches|, k requires 0 <= k < |branches| => domains[branches[k]])
  }

  // The routing that a choice of positions stands for.
  ghost function RoutingOf(variables: map<Id, nat>, routes: seq<seq<Route>>, choice: seq<nat>): Routing
    requires D.IsAssignment(routes, choice) && forall b :: b in variables ==> variables[b] < |routes|
  {
    (b: Id) => if b in variables then routes[variables[b]][choice[variables[b]]] else ""
  }

  // ---------------------------------------------------------------- what the formulas mean

  datatype Setting = Setting(g: Graph, domains: Domains, branches: seq<Id>, variables: map<Id, nat>, routes: seq<seq<Route>>) {
    ghost predicate Valid() {
      && Closed(g)
      && IsNumbering(g, domains, branches) && IsVariables(branches, variables)
      && |routes| == |branches|
      && (forall k :: 0 <= k < |branches| ==> routes[k] == domains[branches[k]])
      && (forall i :: 0 <= i < |g.edges| && g.edges[i].source in g.branches ==> g.edges[i].source in variables)
    }

    ghost function Routes(choice: seq<nat>): Routing
      requires Valid() && D.IsAssignment(routes, choice)
    {
      RoutingOf(variables, routes, choice)
    }
  }

  // Diagram id is the formula "n is active".
  ghost predicate MeansActive(s: Setting, nodes: seq<D.Node>, id: nat, n: Id)
    requires s.Valid() && D.WellFormed(s.routes, nodes)
  {
    id < |nodes| && forall choice :: D.IsAssignment(s.routes, choice) ==>
      D.Eval(s.routes, nodes, id, choice) == Active(s.g, n, s.Routes(choice))
  }

  // Some edge into n among the first k of the document is taken from an active node.
  ghost predicate EntersUpto(g: Graph, n: Id, k: int, r: Routing) {
    exists i :: 0 <= i < |g.edges| && i < k && g.edges[i].target == n && Taken(g, g.edges[i], r) && Active(g, g.edges[i].source, r)
  }

  ghost predicate MeansEnters(s: Setting, nodes: seq<D.Node>, id: nat, n: Id, k: int)
    requires s.Valid() && D.WellFormed(s.routes, nodes)
  {
    id < |nodes| && forall choice :: D.IsAssignment(s.routes, choice) ==>
      D.Eval(s.routes, nodes, id, choice) == EntersUpto(s.g, n, k, s.Routes(choice))
  }

  ghost predicate MeansCrossed(s: Setting, nodes: seq<D.Node>, id: nat, e: Edge)
    requires s.Valid() && D.WellFormed(s.routes, nodes)
  {
    id < |nodes| && forall choice :: D.IsAssignment(s.routes, choice) ==>
      D.Eval(s.routes, nodes, id, choice) == (Taken(s.g, e, s.Routes(choice)) && Active(s.g, e.source, s.Routes(choice)))
  }

  lemma ActiveStable(s: Setting, nodes: seq<D.Node>, more: seq<D.Node>, id: nat, n: Id)
    requires s.Valid() && D.WellFormed(s.routes, nodes) && D.WellFormed(s.routes, more) && nodes <= more
    requires MeansActive(s, nodes, id, n)
    ensures MeansActive(s, more, id, n)
  {
    forall choice | D.IsAssignment(s.routes, choice) ensures D.Eval(s.routes, more, id, choice) == Active(s.g, n, s.Routes(choice)) {
      D.EvalStable(s.routes, nodes, more, id, choice);
    }
  }

  lemma EntersStable(s: Setting, nodes: seq<D.Node>, more: seq<D.Node>, id: nat, n: Id, k: int)
    requires s.Valid() && D.WellFormed(s.routes, nodes) && D.WellFormed(s.routes, more) && nodes <= more
    requires MeansEnters(s, nodes, id, n, k)
    ensures MeansEnters(s, more, id, n, k)
  {
    forall choice | D.IsAssignment(s.routes, choice) ensures D.Eval(s.routes, more, id, choice) == EntersUpto(s.g, n, k, s.Routes(choice)) {
      D.EvalStable(s.routes, nodes, more, id, choice);
    }
  }

  // All incoming edges together say whether the node is active.
  lemma EntersAll(s: Setting, nodes: seq<D.Node>, id: nat, n: Id)
    requires s.Valid() && D.WellFormed(s.routes, nodes) && n != s.g.start
    requires MeansEnters(s, nodes, id, n, |s.g.edges|)
    ensures MeansActive(s, nodes, id, n)
  {
    forall choice | D.IsAssignment(s.routes, choice) ensures EntersUpto(s.g, n, |s.g.edges|, s.Routes(choice)) == Active(s.g, n, s.Routes(choice)) {
      ActiveStep(s.g, n, s.Routes(choice));
    }
  }

  lemma EntersOneMore(s: Setting, nodes: seq<D.Node>, formula: nat, edge: nat, joined: nat, n: Id, k: nat)
    requires s.Valid() && D.WellFormed(s.routes, nodes) && k < |s.g.edges| && s.g.edges[k].target == n
    requires MeansEnters(s, nodes, formula, n, k) && MeansCrossed(s, nodes, edge, s.g.edges[k])
    requires D.Joins(s.routes, nodes, D.Or, formula, edge, joined)
    ensures MeansEnters(s, nodes, joined, n, k + 1)
  {
    forall choice | D.IsAssignment(s.routes, choice)
      ensures D.Eval(s.routes, nodes, joined, choice) == EntersUpto(s.g, n, k + 1, s.Routes(choice))
    {
      EntersNext(s.g, n, k, s.Routes(choice));
    }
  }

  lemma EntersNext(g: Graph, n: Id, k: nat, r: Routing)
    requires k < |g.edges|
    ensures EntersUpto(g, n, k + 1, r) <==>
            EntersUpto(g, n, k, r) || (g.edges[k].target == n && Taken(g, g.edges[k], r) && Active(g, g.edges[k].source, r))
  {
  }

  // The formula of one edge: its source is active and, for a branch, the route is the one taken.
  method EdgeFormula(s: Setting, manager: D.Manager, e: Edge, source: nat) returns (r: D.Outcome)
    requires s.Valid() && manager.Valid() && manager.domains == s.routes && e in s.g.edges
    requires MeansActive(s, manager.nodes, source, e.source)
    modifies manager
    ensures manager.Valid() && old(manager.nodes) <= manager.nodes
    ensures r.Made? ==> MeansCrossed(s, manager.nodes, r.id, e)
    ensures r.TooManyNodes? ==> |manager.nodes| >= D.MAX_NODES
  {
    if e.source !in s.g.branches {
      return D.Made(source);
    }
    var v := s.variables[e.source];
    ghost var before := manager.nodes;
    var test := manager.Equal(v, e.route);
    if test.TooManyNodes? { return test; }
    ActiveStable(s, before, manager.nodes, source, e.source);
    ghost var middle := manager.nodes;
    r := manager.ApplyBinary(D.And, source, test.id);
    if r.Made? {
      ActiveStable(s, middle, manager.nodes, source, e.source);
      forall choice | D.IsAssignment(s.routes, choice)
        ensures D.Eval(s.routes, manager.nodes, test.id, choice) == Taken(s.g, e, s.Routes(choice))
      {
        D.EvalStable(s.routes, middle, manager.nodes, test.id, choice);
      }
    }
  }

  // The formulas computed so far are right.
  ghost predicate KnownFormulas(s: Setting, nodes: seq<D.Node>, activation: map<Id, nat>)
    requires s.Valid() && D.WellFormed(s.routes, nodes)
  {
    forall n :: n in activation ==> MeansActive(s, nodes, activation[n], n)
  }

  lemma KnownStable(s: Setting, nodes: seq<D.Node>, more: seq<D.Node>, activation: map<Id, nat>)
    requires s.Valid() && D.WellFormed(s.routes, nodes) && D.WellFormed(s.routes, more) && nodes <= more
    requires KnownFormulas(s, nodes, activation)
    ensures KnownFormulas(s, more, activation)
  {
    forall n | n in activation ensures MeansActive(s, more, activation[n], n) {
      ActiveStable(s, nodes, more, activation[n], n);
    }
  }

  // The formula of one node, from the formulas of its predecessors.
  method NodeFormula(s: Setting, manager: D.Manager, activation: map<Id, nat>, n: Id) returns (r: D.Outcome)
    requires s.Valid() && manager.Valid() && manager.domains == s.routes && n in s.g.nodes && n != s.g.start
    requires KnownFormulas(s, manager.nodes, activation)
    requires forall i :: 0 <= i < |s.g.edges| && s.g.edges[i].target == n ==> s.g.edges[i].source in activation
    modifies manager
    ensures manager.Valid() && old(manager.nodes) <= manager.nodes
    ensures r.Made? ==> MeansActive(s, manager.nodes, r.id, n)
    ensures r.TooManyNodes? ==> |manager.nodes| >= D.MAX_NODES
  {
    var formula := D.FALSE;
    for i := 0 to |s.g.edges|
      invariant manager.Valid() && old(manager.nodes) <= manager.nodes
      invariant KnownFormulas(s, manager.nodes, activation)
      invariant MeansEnters(s, manager.nodes, formula, n, i)
    {
      if s.g.edges[i].target == n {
        ghost var before := manager.nodes;
        var e := s.g.edges[i];
        assert MeansActive(s, manager.nodes, activation[e.source], e.source);
        var edge := EdgeFormula(s, manager, e, activation[e.source]);
        if edge.TooManyNodes? { return edge; }
        ghost var middle := manager.nodes;
        var joined := manager.ApplyBinary(D.Or, formula, edge.id);
        if joined.TooManyNodes? { return joined; }
        EntersStable(s, before, manager.nodes, formula, n, i);
        CrossedStable(s, middle, manager.nodes, edge.id, e);
        KnownStable(s, before, manager.nodes, activation);
        EntersOneMore(s, manager.nodes, formula, edge.id, joined.id, n, i);
        formula := joined.id;
      } else {
        EntersSkips(s, manager.nodes, formula, n, i);
      }
    }
    EntersAll(s, manager.nodes, formula, n);
    r := D.Made(formula);
  }

  lemma CrossedStable(s: Setting, nodes: seq<D.Node>, more: seq<D.Node>, id: nat, e: Edge)
    requires s.Valid() && D.WellFormed(s.routes, nodes) && D.WellFormed(s.routes, more) && nodes <= more
    requires MeansCrossed(s, nodes, id, e)
    ensures MeansCrossed(s, more, id, e)
  {
    forall choice | D.IsAssignment(s.routes, choice)
      ensures D.Eval(s.routes, more, id, choice) == (Taken(s.g, e, s.Routes(choice)) && Active(s.g, e.source, s.Routes(choice)))
    {
      D.EvalStable(s.routes, nodes, more, id, choice);
    }
  }

  lemma EntersSkips(s: Setting, nodes: seq<D.Node>, id: nat, n: Id, k: nat)
    requires s.Valid() && D.WellFormed(s.routes, nodes) && k < |s.g.edges| && s.g.edges[k].target != n
    requires MeansEnters(s, nodes, id, n, k)
    ensures MeansEnters(s, nodes, id, n, k + 1)
  {
    forall choice | D.IsAssignment(s.routes, choice)
      ensures EntersUpto(s.g, n, k + 1, s.Routes(choice)) == EntersUpto(s.g, n, k, s.Routes(choice))
    {
      EntersNext(s.g, n, k, s.Routes(choice));
    }
  }

  // ---------------------------------------------------------------- routings and choices

  lemma ChoicesAreLegal(s: Setting, choice: seq<nat>)
    requires s.Valid() && D.IsAssignment(s.routes, choice)
    ensures Legal(s.g, s.domains, s.Routes(choice))
  {
    forall b | b in s.g.nodes * s.g.branches && b in s.domains && s.domains[b] != [] ensures s.Routes(choice)(b) in s.domains[b] {
      assert b in s.branches;
      var k :| 0 <= k < |s.branches| && s.branches[k] == b;
      assert s.routes[s.variables[b]] == s.domains[b];
    }
  }

  lemma LegalIsChosen(s: Setting, r: Routing) returns (choice: seq<nat>)
    requires s.Valid() && Legal(s.g, s.domains, r)
    ensures D.IsAssignment(s.routes, choice)
    ensures forall n :: Active(s.g, n, r) == Active(s.g, n, s.Routes(choice))
  {
    choice := seq(|s.routes|, v requires 0 <= v < |s.routes| => PositionOf(s, r, v));
    forall v | 0 <= v < |s.routes| ensures choice[v] < |s.routes[v]| && s.routes[v][choice[v]] == r(s.branches[v]) {
      assert s.branches[v] in s.branches;
    }
    forall e | e in s.g.edges && e.source in s.g.branches ensures r(e.source) == s.Routes(choice)(e.source) {
      assert s.branches[s.variables[e.source]] == e.source;
    }
    forall n ensures Active(s.g, n, r) == Active(s.g, n, s.Routes(choice)) {
      ActiveAgrees(s.g, n, r, s.Routes(choice));
    }
  }

  ghost function PositionOf(s: Setting, r: Routing, v: nat): (c: nat)
    requires s.Valid() && Legal(s.g, s.domains, r) && v < |s.routes|
    ensures c < |s.routes[v]| && s.routes[v][c] == r(s.branches[v])
  {
    assert s.branches[v] in s.branches;
    var c :| 0 <= c < |s.routes[v]| && s.routes[v][c] == r(s.branches[v]);
    c
  }

  // The counterexample diagram is the constant FALSE exactly when no legal routing
  // activates the reader without its source.
  lemma CounterexampleDecides(s: Setting, nodes: seq<D.Node>, target: Id, source: Id, t: nat, notSource: nat, sourceId: nat, id: nat)
    requires s.Valid() && D.WellFormed(s.routes, nodes) && D.Shared(nodes)
    requires MeansActive(s, nodes, t, target) && MeansActive(s, nodes, sourceId, source)
    requires D.Complements(s.routes, nodes, sourceId, notSource)
    requires D.Joins(s.routes, nodes, D.And, t, notSource, id)
    ensures id == D.FALSE <==>
            forall r: Routing :: Legal(s.g, s.domains, r) && Active(s.g, target, r) ==> Active(s.g, source, r)
  {
    D.Canonical(s.routes, nodes, id, D.FALSE);
    if id == D.FALSE {
      forall r: Routing | Legal(s.g, s.domains, r) && Active(s.g, target, r) ensures Active(s.g, source, r) {
        var choice := LegalIsChosen(s, r);
        assert !D.Eval(s.routes, nodes, id, choice);
      }
    } else {
      var choice :| D.IsAssignment(s.routes, choice) && D.Eval(s.routes, nodes, id, choice) != D.Eval(s.routes, nodes, D.FALSE, choice);
      ChoicesAreLegal(s, choice);
      assert Active(s.g, target, s.Routes(choice)) && !Active(s.g, source, s.Routes(choice));
    }
  }

  // ---------------------------------------------------------------- the check

  method NumberBranches(g: Graph, order: seq<Id>, domains: Domains) returns (branches: seq<Id>, variables: map<Id, nat>)
    requires IsTopological(g, order)
    ensures IsNumbering(g, domains, branches) && IsVariables(branches, variables)
  {
    branches := [];
    variables := map[];
    for k := 0 to |order|
      invariant NoDuplicates(branches) && IsVariables(branches, variables)
      invariant forall b :: b in branches <==> b in order[..k] && b in g.branches && b in domains && domains[b] != []
    {
      var id := order[k];
      assert order[..k + 1] == order[..k] + [id];
      if id in g.branches && id in domains && domains[id] != [] {
        assert id !in branches;
        variables := variables[id := |branches|];
        branches := branches + [id];
      }
    }
    assert order[..|order|] == order;
    assert forall b :: b in order <==> b in Elements(order);
  }

  method ActivationFormulas(s: Setting, order: seq<Id>, manager: D.Manager) returns (ok: bool, activation: map<Id, nat>)
    requires s.Valid() && manager.Valid() && manager.domains == s.routes && IsTopological(s.g, order)
    modifies manager
    ensures manager.Valid()
    ensures ok ==> activation.Keys == s.g.nodes && KnownFormulas(s, manager.nodes, activation)
    ensures !ok ==> |manager.nodes| >= D.MAX_NODES
  {
    activation := map[];
    for k := 0 to |order|
      invariant manager.Valid()
      invariant activation.Keys == Elements(order[..k])
      invariant KnownFormulas(s, manager.nodes, activation)
    {
      var id := order[k];
      assert order[..k + 1] == order[..k] + [id];
      assert id in Elements(order);
      if id == s.g.start {
        forall choice | D.IsAssignment(s.routes, choice) ensures Active(s.g, id, s.Routes(choice)) {
          StartIsActive(s.g, s.Routes(choice));
        }
        activation := activation[id := D.TRUE];
      } else {
        PredecessorsKnown(s, order, k, activation);
        ghost var before := manager.nodes;
        var formula := NodeFormula(s, manager, activation, id);
        if formula.TooManyNodes? { return false, activation; }
        KnownStable(s, before, manager.nodes, activation);
        activation := activation[id := formula.id];
      }
    }
    assert order[..|order|] == order;
    ok := true;
  }

  lemma PredecessorsKnown(s: Setting, order: seq<Id>, k: nat, activation: map<Id, nat>)
    requires Closed(s.g) && IsTopological(s.g, order) && k < |order| && activation.Keys == Elements(order[..k])
    ensures forall i :: 0 <= i < |s.g.edges| && s.g.edges[i].target == order[k] ==> s.g.edges[i].source in activation
  {
    forall i | 0 <= i < |s.g.edges| && s.g.edges[i].target == order[k] ensures s.g.edges[i].source in activation {
      EdgePointsForward(s.g, order, i);
      var j := Position(order, s.g.edges[i].source);
      assert order[j] in order[..k];
    }
  }

  // One reference: safe exactly when the answer is true, unless the diagrams grew too large.
  method CheckRef(s: Setting, order: seq<Id>, ancestry: Ancestry, manager: D.Manager, activation: map<Id, nat>, ref: Ref)
    returns (ok: bool, safe: bool)
    requires s.Valid() && manager.Valid() && manager.domains == s.routes
    requires IsTopological(s.g, order) && IsAncestry(s.g, order, ancestry)
    requires activation.Keys == s.g.nodes && KnownFormulas(s, manager.nodes, activation)
    modifies manager
    ensures manager.Valid() && old(manager.nodes) <= manager.nodes
    ensures ok ==> (safe <==> Safe(s.g, s.domains, ref))
    ensures !ok ==> |manager.nodes| >= D.MAX_NODES
  {
    UpstreamMeansPath(s.g, order, ancestry, ref.source, ref.target);
    if !IsControlUpstream(ancestry, ref.source, ref.target) {
      return true, false;
    }
    ghost var before := manager.nodes;
    var notSource := manager.Not(activation[ref.source]);
    if notSource.TooManyNodes? { return false, false; }
    ghost var middle := manager.nodes;
    KnownStable(s, before, middle, activation);
    var counterexample := manager.ApplyBinary(D.And, activation[ref.target], notSource.id);
    if counterexample.TooManyNodes? { return false, false; }
    KnownStable(s, middle, manager.nodes, activation);
    D.ComplementsStable(s.routes, middle, manager.nodes, activation[ref.source], notSource.id);
    manager.ValidIsShared();
    CounterexampleDecides(s, manager.nodes, ref.target, ref.source, activation[ref.target], notSource.id,
                          activation[ref.source], counterexample.id);
    return true, counterexample.id == D.FALSE;
  }

  // ---------------------------------------------------------------- the bound

  // The table of the check, over the branches in some order, has run up against its bound.
  ghost predicate IsFull(g: Graph, domains: Domains, table: seq<D.Node>) {
    exists branches :: IsNumbering(g, domains, branches) && FullOver(domains, branches, table)
  }

  ghost predicate FullOver(domains: Domains, branches: seq<Id>, table: seq<D.Node>) {
    && (forall b :: b in branches ==> b in domains)
    && D.WellFormed(VariableDomains(domains, branches), table) && D.Shared(table) && |table| >= D.MAX_NODES
  }

  // In how many ways the branches can choose their routes.
  ghost function Combinations(g: Graph, domains: Domains): nat {
    Product(map b | b in g.nodes * g.branches && b in domains && domains[b] != [] :: |domains[b]|)
  }

  ghost function Product(m: map<Id, nat>): nat
    decreases |m|
  {
    if m == map[] then 1
    else
      var k :| k in m;
      m[k] * Product(m - {k})
  }

  // The product does not depend on the order of its factors.
  lemma {:induction false} ProductSplit(m: map<Id, nat>, k: Id)
    requires k in m
    ensures Product(m) == m[k] * Product(m - {k})
    decreases |m|
  {
    var c :| c in m && Product(m) == m[c] * Product(m - {c});
    if c != k {
      ProductSplit(m - {c}, k);
      ProductSplit(m - {k}, c);
      assert (m - {c}) - {k} == (m - {k}) - {c};
      Rearranged(m[c], m[k], Product((m - {c}) - {k}));
    }
  }

  lemma Rearranged(a: nat, b: nat, c: nat)
    ensures a * (b * c) == b * (a * c)
  {
  }

  lemma NoFactors()
    ensures Product(map[]) == 1
  {
  }

  lemma WithoutLast(m: map<Id, nat>, branches: seq<Id>)
    requires NoDuplicates(branches) && m.Keys == Elements(branches) && branches != []
    ensures branches[|branches| - 1] in m && (m - {branches[|branches| - 1]}).Keys == Elements(branches[..|branches| - 1])
    ensures NoDuplicates(branches[..|branches| - 1]) && forall b :: b in branches[..|branches| - 1] ==> b in branches && b != branches[|branches| - 1]
  {
    assert branches == branches[..|branches| - 1] + [branches[|branches| - 1]];
  }

  lemma {:induction false} ProductOfSizes(m: map<Id, nat>, branches: seq<Id>, domains: Domains)
    requires NoDuplicates(branches) && m.Keys == Elements(branches) && forall b :: b in branches ==> b in domains && m[b] == |domains[b]|
    ensures Product(m) == D.Assignments(VariableDomains(domains, branches))
  {
    hide Product;
    if branches == [] {
      assert m == map[];
      NoFactors();
    } else {
      var rest, last := branches[..|branches| - 1], branches[|branches| - 1];
      WithoutLast(m, branches);
      ProductSplit(m, last);
      ProductOfSizes(m - {last}, rest, domains);
      var routes := VariableDomains(domains, branches);
      assert routes[..|routes| - 1] == VariableDomains(domains, rest);
    }
  }

  // Diagrams never outgrow the number of functions there are: few combinations of routes are never too complex.
  lemma FullMeansMany(g: Graph, domains: Domains, table: seq<D.Node>)
    requires IsFull(g, domains, table)
    ensures D.MAX_NODES <= D.Exp2(Combinations(g, domains))
  {
    var branches :| IsNumbering(g, domains, branches) && FullOver(domains, branches, table);
    var m := map b | b in g.nodes * g.branches && b in domains && domains[b] != [] :: |domains[b]|;
    assert m.Keys == Elements(branches);
    ProductOfSizes(m, branches, domains);
    D.TableAtMost(VariableDomains(domains, branches), table);
  }

  // The whole check.  Its answer lists exactly the references that are not safe.
  method ValidateDataBindings(g: Graph, order: seq<Id>, ancestry: Ancestry, domains: Domains, refs: seq<Ref>)
    returns (v: Verdict, ghost table: seq<D.Node>)
    requires Closed(g)
    requires IsTopological(g, order) && IsAncestry(g, order, ancestry)
    ensures v.TooComplex? ==> IsFull(g, domains, table) && D.MAX_NODES <= D.Exp2(Combinations(g, domains))
    ensures v.Checked? ==> forall ref :: ref in v.unsafe <==> ref in refs && !Safe(g, domains, ref)
    ensures v.RouteDomainMissing? <==> exists i :: 0 <= i < |g.edges| && Undeclared(g, domains, g.edges[i].source)
  {
    var branches, variables := NumberBranches(g, order, domains);
    var declared := AllDeclared(g, domains, branches, variables);
    if !declared { return RouteDomainMissing, []; }
    var routes := VariableDomains(domains, branches);
    var s := Setting(g, domains, branches, variables, routes);
    var manager := new D.Manager(routes);
    var ok, activation := ActivationFormulas(s, order, manager);
    v := TooComplex;
    if ok { v := CheckRefs(s, order, ancestry, manager, activation, refs); }
    table := manager.nodes;
    manager.ValidIsShared();
    if v.TooComplex? {
      assert FullOver(domains, branches, table);
      FullMeansMany(g, domains, table);
    }
  }

  // Every branch that an edge leaves has been numbered, so it declares at least one route.
  method AllDeclared(g: Graph, domains: Domains, branches: seq<Id>, variables: map<Id, nat>) returns (ok: bool)
    requires Closed(g) && IsNumbering(g, domains, branches) && IsVariables(branches, variables)
    ensures !ok <==> exists i :: 0 <= i < |g.edges| && Undeclared(g, domains, g.edges[i].source)
    ensures ok ==> forall i :: 0 <= i < |g.edges| && g.edges[i].source in g.branches ==> g.edges[i].source in variables
  {
    for i := 0 to |g.edges|
      invariant forall j :: 0 <= j < i ==> !Undeclared(g, domains, g.edges[j].source)
      invariant forall j :: 0 <= j < i && g.edges[j].source in g.branches ==> g.edges[j].source in variables
    {
      assert g.edges[i].source in variables <==> g.edges[i].source in branches;
      if g.edges[i].source in g.branches && g.edges[i].source !in variables {
        return false;
      }
    }
    ok := true;
  }

  method CheckRefs(s: Setting, order: seq<Id>, ancestry: Ancestry, manager: D.Manager, activation: map<Id, nat>, refs: seq<Ref>)
    returns (v: Verdict)
    requires s.Valid() && manager.Valid() && manager.domains == s.routes
    requires IsTopological(s.g, order) && IsAncestry(s.g, order, ancestry)
    requires activation.Keys == s.g.nodes && KnownFormulas(s, manager.nodes, activation)
    modifies manager
    ensures manager.Valid() && !v.RouteDomainMissing? && (v.TooComplex? ==> |manager.nodes| >= D.MAX_NODES)
    ensures v.Checked? ==> forall ref :: ref in v.unsafe <==> ref in refs && !Safe(s.g, s.domains, ref)
  {
    var unsafe: seq<Ref> := [];
    for k := 0 to |refs|
      invariant manager.Valid()
      invariant KnownFormulas(s, manager.nodes, activation)
      invariant forall ref :: ref in unsafe <==> ref in refs[..k] && !Safe(s.g, s.domains, ref)
    {
      ghost var before := manager.nodes;
      var done, safe := CheckRef(s, order, ancestry, manager, activation, refs[k]);
      if !done { return TooComplex; }
      KnownStable(s, before, manager.nodes, activation);
      assert refs[..k + 1] == refs[..k] + [refs[k]];
      if !safe {
        unsafe := unsafe + [refs[k]];
      }
    }
    assert refs[..|refs|] == refs;
    v := Checked(unsafe);
  }
}
