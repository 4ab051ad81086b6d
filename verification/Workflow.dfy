/**
 Immutable workflow definitions, the rules under which the definition contract accepts them,
 and the state of one run of a definition.
 */
module Workflow {
  import opened Ids
  import opened Json
  import opened Runtime
  import opened Graphs
  import B = Branch
  import DataBindings

  datatype Activation = Always | OnRoute(route: string)

  datatype Link = Link(id: Id, source: Id, target: Id, activation: Activation)

  datatype Binding =
    | Literal(dataType: DataType, value: Value)
    | FromOutput(dataType: DataType, node: Id, name: string)

  datatype Operation = StartOp | EndOp | BranchOp(cases: seq<B.Case>, fallback: string) | TaskOp

  datatype Policy = Policy(maxAttempts: nat, maxRecoveries: nat, delay: nat, retryable: seq<string>)

  datatype NodeDef = NodeDef(
    op: Operation, inputs: map<string, Binding>, outputs: map<string, DataType>, policy: Policy)
  {
    function Kind(): NodeKind {
      if op.TaskOp? then Task else Control
    }
  }

  datatype Doc = Doc(entry: Id, exit: Id, nodes: map<Id, NodeDef>, edges: seq<Link>)

  // ---------------------------------------------------------------- the contract

  // The control graph of a definition.
  function GraphOf(d: Doc): Graph {
    Graph(d.nodes.Keys,
          seq(|d.edges|, i requires 0 <= i < |d.edges| => EdgeOf(d.edges[i])),
          (set n | n in d.nodes && d.nodes[n].op.BranchOp?),
          d.entry)
  }

  function EdgeOf(l: Link): Edge {
    Edge(l.id, l.source, l.target, if l.activation.OnRoute? then l.activation.route else "")
  }

  function RoutesOf(op: Operation): seq<string>
    requires op.BranchOp?
  {
    [op.fallback] + seq(|op.cases|, i requires 0 <= i < |op.cases| => op.cases[i].route)
  }

  function DomainsOf(d: Doc): map<Id, seq<string>> {
    map n | n in d.nodes && d.nodes[n].op.BranchOp? :: RoutesOf(d.nodes[n].op)
  }

  ghost predicate ValidEdges(d: Doc) {
    forall i :: 0 <= i < |d.edges| ==> ValidEdge(d, d.edges[i])
  }

  ghost predicate ValidEdge(d: Doc, l: Link) {
    && l.source in d.nodes && l.target in d.nodes
    && l.target != d.entry && l.source != d.exit
    && (if d.nodes[l.source].op.BranchOp? then l.activation.OnRoute? && l.activation.route in RoutesOf(d.nodes[l.source].op)
        else l.activation.Always?)
  }

  ghost predicate HasIncoming(d: Doc, n: Id) {
    exists i :: 0 <= i < |d.edges| && d.edges[i].target == n
  }

  ghost predicate HasOutgoing(d: Doc, n: Id) {
    exists i :: 0 <= i < |d.edges| && d.edges[i].source == n
  }

  ghost predicate HasRouteEdge(d: Doc, n: Id, route: string) {
    exists i :: 0 <= i < |d.edges| && d.edges[i].source == n && d.edges[i].activation == OnRoute(route)
  }

  ghost predicate ValidBinding(d: Doc, b: Binding) {
    match b
    case Literal(t, v) => LiteralType(v).Some? && Compatible(LiteralType(v).value, t)
    case FromOutput(t, m, name) => m in d.nodes && name in d.nodes[m].outputs && Compatible(d.nodes[m].outputs[name], t)
  }

  ghost predicate ValidNode(d: Doc, n: Id)
    requires n in d.nodes
  {
    var def := d.nodes[n];
    && n != ""
    && (def.op.StartOp? <==> n == d.entry)
    && (def.op.EndOp? <==> n == d.exit)
    && (n != d.entry ==> HasIncoming(d, n))
    && (n != d.exit ==> HasOutgoing(d, n))
    && (forall k :: k in def.inputs ==> ValidBinding(d, def.inputs[k]))
    && (match def.op
        case StartOp => def.inputs == map[] && def.outputs == map["workflow_input" := TObject]
        case EndOp => def.outputs == map[] && "workflow_output" in def.inputs && def.inputs["workflow_output"].dataType.TObject?
        case BranchOp(cases, fallback) =>
          && def.outputs == map[] && "value" in def.inputs
          && forall r :: r in RoutesOf(def.op) ==> r != "" && HasRouteEdge(d, n, r)
        case TaskOp => def.policy.maxAttempts >= 1 && def.policy.delay >= 1)
  }

  // What the contract checks of a definition before the engine accepts it.
  ghost predicate ValidDoc(d: Doc) {
    && d.entry in d.nodes && d.exit in d.nodes
    && (forall n :: n in d.nodes ==> ValidNode(d, n))
    && ValidEdges(d)
    && exists order :: IsTopological(GraphOf(d), order)
  }

  // What the compiler's check of data references adds.
  ghost predicate SafeBindings(d: Doc) {
    forall n, k :: n in d.nodes && k in d.nodes[n].inputs && d.nodes[n].inputs[k].FromOutput? ==>
      DataBindings.Safe(GraphOf(d), DomainsOf(d), DataBindings.Ref(n, d.nodes[n].inputs[k].node))
  }

  lemma GraphIsClosed(d: Doc)
    requires ValidDoc(d)
    ensures Closed(GraphOf(d))
  {
    var g := GraphOf(d);
    forall i | 0 <= i < |g.edges| ensures g.edges[i].source in g.nodes && g.edges[i].target in g.nodes {
      assert ValidEdge(d, d.edges[i]);
    }
  }

  // ---------------------------------------------------------------- the state of a run

  datatype EdgeState = EdgePending | EdgeActive | EdgeInactive

  // edges[i] is the state of the i-th edge of the definition.
  datatype State = State(
    run: Run, nodes: map<Id, NodeRun>, attempts: map<Id, Attempt>, edges: seq<EdgeState>)

  // A state of a run of d, whatever else holds of it.
  ghost predicate Fits(d: Doc, s: State) {
    s.nodes.Keys == d.nodes.Keys && |s.edges| == |d.edges|
  }
}
