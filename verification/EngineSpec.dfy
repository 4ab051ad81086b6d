/**
 What every engine operation does to the state of a run, as functions.  Err is an operation
 that returned an error.  Module EngineObject implements them in place; EngineInvariants and the
 modules after it prove what they guarantee.
 */
module EngineSpec {
  import opened Ids
  import opened Json
  import opened Runtime
  import opened Workflow
  import B = Branch

  const NODE_FAILED := "NODE_FAILED"
  const NODE_TIMEOUT := "NODE_TIMEOUT"
  const RUN_CANCELED := "RUN_CANCELED"
  const RUN_TIMED_OUT := "RUN_TIMED_OUT"
  const OUTPUT_CONTRACT := "RUNTIME_OUTPUT_CONTRACT_VIOLATION"
  const INPUT_CONTRACT := "RUNTIME_INPUT_CONTRACT_VIOLATION"
  const BRANCH_PATH := "BRANCH_PATH_NOT_FOUND"
  const BRANCH_OPERATOR := "BRANCH_OPERATOR_TYPE_MISMATCH"

  // ---------------------------------------------------------------- edges

  predicate AllIncomingSettled(d: Doc, s: State, n: Id)
    requires |s.edges| == |d.edges|
  {
    forall i :: 0 <= i < |d.edges| && d.edges[i].target == n ==> !s.edges[i].EdgePending?
  }

  predicate AnyIncomingActive(d: Doc, s: State, n: Id)
    requires |s.edges| == |d.edges|
  {
    exists i :: 0 <= i < |d.edges| && d.edges[i].target == n && s.edges[i].EdgeActive?
  }

  // The state an edge takes once its source is in a final state.
  function SettledAs(l: Link, source: NodeState, route: string): EdgeState {
    if source.Succeeded? && (l.activation.Always? || l.activation.route == route) then EdgeActive else EdgeInactive
  }

  function SettledEdges(d: Doc, s: State, n: Id, route: string): (r: seq<EdgeState>)
    requires Fits(d, s) && n in s.nodes
    ensures |r| == |d.edges|
  {
    seq(|d.edges|, i requires 0 <= i < |d.edges| =>
      if d.edges[i].source == n then SettledAs(d.edges[i], s.nodes[n].state, route) else s.edges[i])
  }

  function Settle(d: Doc, s: State, n: Id, route: string): State
    requires Fits(d, s) && n in s.nodes
  {
    s.(edges := SettledEdges(d, s, n, route))
  }

  function SetNode(s: State, n: Id, node: NodeRun): State {
    s.(nodes := s.nodes[n := node])
  }

  // ---------------------------------------------------------------- input bindings

  datatype Bound = Has(value: Value) | Waiting | Unbound

  function Bind(s: State, b: Binding): Bound {
    match b
    case Literal(_, v) => Has(v)
    case FromOutput(_, m, name) =>
      if m !in s.nodes then Unbound
      else if !s.nodes[m].state.Succeeded? then (if s.nodes[m].state.Terminal() then Unbound else Waiting)
      else if name in s.nodes[m].outputs then Has(s.nodes[m].outputs[name])
      else Unbound
  }

  datatype Inputs = Resolved(values: map<string, Value>) | NotReady | Refused

  // The bindings are read in whatever order the map is walked; a refusal is reported before a wait.
  function ResolveInputs(s: State, def: NodeDef): Inputs {
    if exists k :: k in def.inputs && Bind(s, def.inputs[k]).Unbound? then Refused
    else if exists k :: k in def.inputs && Bind(s, def.inputs[k]).Waiting? then NotReady
    else Resolved(map k | k in def.inputs :: Bind(s, def.inputs[k]).value)
  }

  // ---------------------------------------------------------------- one visit of the driving loop

  datatype Step =
    | Idle(s: State)      // nothing to report, though the node may have been activated
    | Moved(s: State)     // the node left the pending state
    | Tripped(s: State)   // the node failed, and termination was requested
    | Broken              // an operation was refused

  function AtOrCreated(at: Time, run: Run): Time {
    if at != 0 then at else run.command.createdAt
  }

  function Trip(s: State, n: Id, failed: Result<NodeRun>, cause: Failure, at: Time): Step {
    match failed
    case Err => Broken
    case Ok(node) =>
      Tripped(SetNode(s, n, node).(run := s.run.Terminate(Intent(FailedKind, AtOrCreated(at, s.run), cause))))
  }

  function Visit(d: Doc, s: State, n: Id, at: Time): Step
    requires Fits(d, s) && n in s.nodes
  {
    if !s.nodes[n].state.Pending? || n == d.entry || !AllIncomingSettled(d, s, n) then Idle(s)
    else if !AnyIncomingActive(d, s, n) then
      match s.nodes[n].Skip()
      case Err => Broken
      case Ok(node) => Moved(Settle(d, SetNode(s, n, node), n, ""))
    else
      match s.nodes[n].Activate()
      case Err => Broken
      case Ok(node) => Fire(d, SetNode(s, n, node), n, at)
  }

  // An activated node whose inputs are resolved next.
  function Fire(d: Doc, s: State, n: Id, at: Time): Step
    requires Fits(d, s) && n in s.nodes
  {
    match ResolveInputs(s, d.nodes[n])
    case Refused =>
      var cause := Failure(INPUT_CONTRACT, "input_binding", n, "", "inputs");
      Trip(s, n, if s.nodes[n].kind.Control? then s.nodes[n].FailControl(cause) else s.nodes[n].FailBeforeAttempt(cause), cause, at)
    case NotReady => Idle(s)
    case Resolved(values) =>
      match d.nodes[n].op
      case TaskOp =>
        (match s.nodes[n].BecomeReady(values) case Err => Broken case Ok(node) => Moved(SetNode(s, n, node)))
      case BranchOp(cases, fallback) => FireBranch(d, s, n, if "value" in values then values["value"] else Null, at)
      case EndOp => FireEnd(s, n, if "workflow_output" in values then values["workflow_output"] else Null)
      case StartOp => Broken
  }

  function FireBranch(d: Doc, s: State, n: Id, value: Value, at: Time): Step
    requires Fits(d, s) && n in s.nodes && d.nodes[n].op.BranchOp?
  {
    match B.Evaluate(d.nodes[n].op.cases, d.nodes[n].op.fallback, value)
    case Took(route) =>
      (match s.nodes[n].SucceedControl(route, map[])
       case Err => Broken
       case Ok(node) => Moved(Settle(d, SetNode(s, n, node), n, route)))
    case PathNotFound =>
      var cause := Failure(BRANCH_PATH, "control_evaluation", n, "", "operation.config");
      Trip(s, n, s.nodes[n].FailControl(cause), cause, at)
    case OperatorMismatch =>
      var cause := Failure(BRANCH_OPERATOR, "control_evaluation", n, "", "operation.config");
      Trip(s, n, s.nodes[n].FailControl(cause), cause, at)
  }

  predicate OthersTerminal(s: State, n: Id) {
    forall m :: m in s.nodes && m != n ==> s.nodes[m].state.Terminal()
  }

  predicate AllTerminal(s: State) {
    forall m :: m in s.nodes ==> s.nodes[m].state.Terminal()
  }

  function FireEnd(s: State, n: Id, output: Value): Step
    requires n in s.nodes
  {
    if !OthersTerminal(s, n) then Idle(s)
    else
      match CompleteWorkflowSuccess(s.run, n, s.nodes, output)
      case Err => Broken
      case Ok((run, node)) => Moved(SetNode(s, n, node).(run := run))
  }

  // ---------------------------------------------------------------- the driving loop

  // One pass over the ids from position i on.
  ghost function Pass(d: Doc, s: State, ids: seq<Id>, i: nat, at: Time): Step
    requires Fits(d, s) && i <= |ids| && forall k :: 0 <= k < |ids| ==> ids[k] in d.nodes
    decreases |ids| - i
  {
    if i == |ids| then Idle(s)
    else
      VisitFits(d, s, ids[i], at);
      match Visit(d, s, ids[i], at)
      case Idle(s') => Pass(d, s', ids, i + 1, at)
      case Moved(s') =>
        (match Pass(d, s', ids, i + 1, at)
         case Idle(s'') => Moved(s'')
         case other => other)
      case other => other
  }

  ghost function Pendings(s: State): set<Id> {
    set n | n in s.nodes && s.nodes[n].state.Pending?
  }

  // t differs from s in the record of n, the run and the edges at most.
  ghost predicate OnlyNode(s: State, t: State, n: Id) {
    n in s.nodes && n in t.nodes && t.nodes == s.nodes[n := t.nodes[n]] && t.attempts == s.attempts && |t.edges| == |s.edges|
  }

  lemma FireShape(d: Doc, s: State, n: Id, at: Time)
    requires Fits(d, s) && n in s.nodes
    ensures var r := Fire(d, s, n, at);
            !r.Broken? ==> OnlyNode(s, r.s, n) && (r.Idle? ==> r.s == s) && (!r.Idle? ==> !r.s.nodes[n].state.Pending?)
  {
    if d.nodes[n].op.BranchOp? {
      forall value ensures var r := FireBranch(d, s, n, value, at);
                           !r.Broken? ==> OnlyNode(s, r.s, n) && !r.Idle? && !r.s.nodes[n].state.Pending? {}
    }
    if d.nodes[n].op.EndOp? {
      forall value ensures var r := FireEnd(s, n, value);
                           !r.Broken? ==> OnlyNode(s, r.s, n) && (r.Idle? ==> r.s == s) && (!r.Idle? ==> !r.s.nodes[n].state.Pending?) {}
    }
  }

  // One visit changes one node; unless it is idle, the node leaves the pending state.
  lemma VisitShape(d: Doc, s: State, n: Id, at: Time)
    requires Fits(d, s) && n in s.nodes
    ensures var r := Visit(d, s, n, at);
            !r.Broken? ==>
              && OnlyNode(s, r.s, n) && (s.nodes[n].state.Pending? || r.s == s)
              && (r.Idle? ==> r.s.nodes[n].state == s.nodes[n].state && r.s.edges == s.edges && r.s.run == s.run)
              && (!r.Idle? ==> s.nodes[n].state.Pending? && !r.s.nodes[n].state.Pending?)
  {
    if s.nodes[n].state.Pending? && s.nodes[n].Activate().Ok? {
      FireShape(d, SetNode(s, n, s.nodes[n].Activate().value), n, at);
    }
  }

  lemma VisitFits(d: Doc, s: State, n: Id, at: Time)
    requires Fits(d, s) && n in s.nodes
    ensures var r := Visit(d, s, n, at);
            && (r.Broken? || Fits(d, r.s))
            && (r.Idle? ==> Pendings(r.s) == Pendings(s))
            && (r.Moved? || r.Tripped? ==> Pendings(r.s) < Pendings(s))
  {
    VisitShape(d, s, n, at);
    var r := Visit(d, s, n, at);
    if r.Moved? || r.Tripped? {
      assert n in Pendings(s) && n !in Pendings(r.s);
    }
  }

  lemma {:induction false} PassFits(d: Doc, s: State, ids: seq<Id>, i: nat, at: Time)
    requires Fits(d, s) && i <= |ids| && forall k :: 0 <= k < |ids| ==> ids[k] in d.nodes
    ensures var r := Pass(d, s, ids, i, at);
            && (r.Broken? || Fits(d, r.s))
            && (r.Idle? ==> Pendings(r.s) == Pendings(s))
            && (r.Moved? || r.Tripped? ==> Pendings(r.s) < Pendings(s))
    decreases |ids| - i
  {
    if i < |ids| {
      VisitFits(d, s, ids[i], at);
      var v := Visit(d, s, ids[i], at);
      if v.Idle? || v.Moved? {
        PassFits(d, v.s, ids, i + 1, at);
      }
    }
  }

  function CancelReason(kind: TerminationKind): string {
    match kind
    case CanceledKind => RUN_CANCELED
    case TimedOutKind => RUN_TIMED_OUT
    case FailedKind => NODE_FAILED
  }

  // A node whose attempt is still out is left to settle; every other open node is canceled.
  predicate Outstanding(s: State, n: Id)
    requires n in s.nodes
  {
    && (s.nodes[n].state.Queued? || s.nodes[n].state.Running?)
    && s.nodes[n].current in s.attempts && !s.attempts[s.nodes[n].current].state.Terminal()
  }

  ghost function Sweep(d: Doc, s: State, ids: seq<Id>, i: nat, reason: string): Result<State>
    requires Fits(d, s) && i <= |ids| && forall k :: 0 <= k < |ids| ==> ids[k] in d.nodes
    ensures var r := Sweep(d, s, ids, i, reason); r.Ok? ==> Fits(d, r.value)
    decreases |ids| - i
  {
    if i == |ids| then Ok(s)
    else if s.nodes[ids[i]].state.Terminal() || Outstanding(s, ids[i]) then Sweep(d, s, ids, i + 1, reason)
    else
      match s.nodes[ids[i]].Cancel(reason)
      case Err => Err
      case Ok(node) => Sweep(d, Settle(d, SetNode(s, ids[i], node), ids[i], ""), ids, i + 1, reason)
  }

  ghost function Wind(d: Doc, s: State): Result<State>
    requires Fits(d, s) && s.run.termination.Some?
  {
    ListingInside(d);
    match Sweep(d, s, Listing(d.nodes.Keys), 0, CancelReason(s.run.termination.value.kind))
    case Err => Err
    case Ok(t) =>
      if !AllTerminal(t) then Ok(t)
      else
        match t.run.CompleteTermination(t.nodes)
        case Err => Err
        case Ok(run) => Ok(t.(run := run))
  }

  lemma ListingInside(d: Doc)
    ensures forall k :: 0 <= k < |Listing(d.nodes.Keys)| ==> Listing(d.nodes.Keys)[k] in d.nodes
  {
    var ids := Listing(d.nodes.Keys);
    forall k | 0 <= k < |ids| ensures ids[k] in d.nodes {
      assert ids[k] in Elements(ids);
    }
  }

  // drive: it stops because every repeated pass takes a node out of the pending state.
  ghost function Drive(d: Doc, s: State, at: Time): Result<State>
    requires Fits(d, s)
    decreases Pendings(s)
  {
    if s.run.termination.Some? then Wind(d, s)
    else
      ListingInside(d);
      PassFits(d, s, Listing(d.nodes.Keys), 0, at);
      match Pass(d, s, Listing(d.nodes.Keys), 0, at)
      case Broken => Err
      case Idle(s') => Ok(s')
      case Moved(s') => if s'.run.state.Terminal() then Ok(s') else Drive(d, s', at)
      case Tripped(s') => Drive(d, s', at)
  }

  // ---------------------------------------------------------------- operations

  // A run whose nodes are all pending.
  function Blank(d: Doc, run: Run): (s: State)
    ensures Fits(d, s)
  {
    State(run, map n | n in d.nodes :: NewNodeRun(d.nodes[n].Kind()), map[], seq(|d.edges|, i => EdgePending))
  }

  // The blank run started, with its entry node already succeeded.
  function Seeded(d: Doc, c: Command): Result<State>
    requires d.entry in d.nodes
  {
    var run :- NewRun(c);
    var started :- run.Start(d.nodes.Keys);
    var active :- Blank(d, started).nodes[d.entry].Activate();
    var entry :- active.SucceedControl("", map["workflow_input" := c.input]);
    Ok(Settle(d, SetNode(Blank(d, started), d.entry, entry), d.entry, ""))
  }

  lemma SeededFits(d: Doc, c: Command)
    requires d.entry in d.nodes && Seeded(d, c).Ok?
    ensures Fits(d, Seeded(d, c).value)
  {
  }

  // The engine of a fresh run.
  ghost function New(d: Doc, c: Command): Result<State> {
    if !ValidDoc(d) then Err
    else
      var s :- Seeded(d, c);
      SeededFits(d, c);
      Drive(d, s, 0)
  }

  function QueueNode(s: State, n: Id, a: Id): Result<State> {
    if s.run.termination.Some? || a in s.attempts || n !in s.nodes then Err
    else
      var node :- s.nodes[n].QueueAttempt(a);
      var attempt :- NewAttempt(n, node.nextSeq, s.nodes[n].nextKind);
      Ok(SetNode(s, n, node).(attempts := s.attempts[a := attempt]))
  }

  function StartAttempt(s: State, a: Id): Result<State> {
    if a !in s.attempts then Err
    else if s.attempts[a].state.AttemptRunning? then Ok(s)
    else
      var attempt :- s.attempts[a].Start();
      if attempt.node !in s.nodes then Err
      else
        var node :- s.nodes[attempt.node].AttemptStarted(a);
        Ok(SetNode(s, attempt.node, node).(attempts := s.attempts[a := attempt]))
  }

  // Records the terminal fact of an attempt; the flag says whether it was new.
  function RecordResult(s: State, a: Id, r: AttemptResult): Result<(State, bool)> {
    if a !in s.attempts || s.attempts[a].node !in s.nodes then Err
    else if s.nodes[s.attempts[a].node].current != a then Ok((s, false))
    else if s.attempts[a].result.Some? then (if s.attempts[a].result == Some(r) then Ok((s, false)) else Err)
    else
      var attempt :- s.attempts[a].Complete(r);
      Ok((s.(attempts := s.attempts[a := attempt]), true))
  }

  predicate ValidOutputs(def: NodeDef, values: map<string, Value>) {
    && |values| == |def.outputs|
    && forall k :: k in def.outputs ==>
         k in values && RuntimeType(values[k]).Some? && Compatible(RuntimeType(values[k]).value, def.outputs[k])
  }

  function AcceptSuccess(d: Doc, s: State, n: Id, a: Id, values: map<string, Value>): Result<State>
    requires Fits(d, s) && n in s.nodes
  {
    if !ValidOutputs(d.nodes[n], values) then Err
    else
      var node :- s.nodes[n].SucceedAttempt(a, values);
      Ok(Settle(d, SetNode(s, n, node), n, ""))
  }

  // Fails node n for good and requests termination.
  function FailNode(s: State, n: Id, failed: Result<NodeRun>, cause: Failure, at: Time): Result<State> {
    var node :- failed;
    Ok(SetNode(s, n, node).(run := s.run.Terminate(Intent(FailedKind, at, cause))))
  }

  // Whether the result is retried, and as what.
  function RetryAs(def: NodeDef, node: NodeRun, r: AttemptResult): Option<RetryKind> {
    if r.state.AttemptLost? then (if node.recovery < def.policy.maxRecoveries then Some(Recovery) else None)
    else if r.state.AttemptFailed? || r.state.AttemptTimedOut? then
      (if r.code in def.policy.retryable && node.business < def.policy.maxAttempts then Some(Business) else None)
    else None
  }

  // The terminal fact of the current attempt of an open node, while the run is not terminating.
  function Conclude(d: Doc, s: State, n: Id, a: Id, r: AttemptResult, at: Time): Result<State>
    requires Fits(d, s) && n in s.nodes
  {
    var cause := Failure(if r.state.AttemptTimedOut? && r.code == "" then NODE_TIMEOUT else r.code, "node_execution", n, a, r.field);
    match r.state
    case AttemptSucceeded =>
      (match AcceptSuccess(d, s, n, a, r.outputs)
       case Ok(t) => Ok(t)
       case Err =>
         var broken := Failure(OUTPUT_CONTRACT, "output_binding", n, a, "outputs");
         FailNode(s, n, s.nodes[n].FailAttempt(a, Failed, broken), broken, at))
    case AttemptCanceled => FailNode(s, n, s.nodes[n].Cancel(NODE_FAILED), cause, at)
    case AttemptTimedOut => FailNode(s, n, s.nodes[n].FailAttempt(a, TimedOut, cause), cause, at)
    case AttemptFailed => FailNode(s, n, s.nodes[n].FailAttempt(a, Failed, cause), cause, at)
    case AttemptLost => FailNode(s, n, s.nodes[n].FailAttempt(a, Failed, cause), cause, at)
    case _ => Err
  }

  // The same while the run is terminating: a success still counts, anything else cancels the node.
  function ConcludeWinding(d: Doc, s: State, n: Id, a: Id, r: AttemptResult): Result<State>
    requires Fits(d, s) && n in s.nodes && s.run.termination.Some?
  {
    if r.state.AttemptSucceeded? && AcceptSuccess(d, s, n, a, r.outputs).Ok? then AcceptSuccess(d, s, n, a, r.outputs)
    else
      var node :- s.nodes[n].Cancel(CancelReason(s.run.termination.value.kind));
      Ok(SetNode(s, n, node))
  }

  ghost function HandleCompleted(d: Doc, s: State, a: Id, at: Time): Result<State>
    requires Fits(d, s)
  {
    if a !in s.attempts || at == 0 || at < s.run.command.createdAt || s.attempts[a].result.None? || s.attempts[a].node !in s.nodes then Err
    else
      var n, r := s.attempts[a].node, s.attempts[a].result.value;
      var node := s.nodes[n];
      if node.current != a || node.state.Terminal() || node.state.RetryWait? || node.state.Ready? then Ok(s)
      else if s.run.termination.Some? then
        var t :- ConcludeWinding(d, s, n, a, r);
        ConcludeFits(d, s, n, a, r, at);
        Drive(d, t, at)
      else if RetryAs(d.nodes[n], node, r).Some? then
        var waiting :- node.WaitForRetry(a, RetryAs(d.nodes[n], node, r).value, at + d.nodes[n].policy.delay);
        Ok(SetNode(s, n, waiting))
      else
        var t :- Conclude(d, s, n, a, r, at);
        ConcludeFits(d, s, n, a, r, at);
        Drive(d, t, at)
  }

  lemma ConcludeFits(d: Doc, s: State, n: Id, a: Id, r: AttemptResult, at: Time)
    requires Fits(d, s) && n in s.nodes
    ensures Conclude(d, s, n, a, r, at).Ok? ==> Fits(d, Conclude(d, s, n, a, r, at).value)
    ensures s.run.termination.Some? && ConcludeWinding(d, s, n, a, r).Ok? ==> Fits(d, ConcludeWinding(d, s, n, a, r).value)
  {
  }

  ghost function RetryDue(d: Doc, s: State, n: Id, at: Time): Result<State>
    requires Fits(d, s)
  {
    if s.run.termination.Some? then Drive(d, s, at)
    else if n !in s.nodes then Err
    else if !s.nodes[n].state.RetryWait? then Ok(s)
    else
      var node :- s.nodes[n].RetryDue(at);
      Ok(SetNode(s, n, node))
  }

  // Asks for termination and drives; the flag says whether this intent is the one recorded.
  ghost function RequestStop(d: Doc, s: State, intent: Intent): Result<(State, bool)>
    requires Fits(d, s)
  {
    if s.run.state.Terminal() then Ok((s, false))
    else
      var (run, applied) :- s.run.RequestTermination(intent);
      var t :- Drive(d, s.(run := run), intent.requestedAt);
      Ok((t, applied))
  }

  ghost function RequestCancel(d: Doc, s: State, at: Time): Result<(State, bool)>
    requires Fits(d, s)
  {
    RequestStop(d, s, Intent(CanceledKind, at, Failure(RUN_CANCELED, "run_control", "", "", "")))
  }

  ghost function DeadlineReached(d: Doc, s: State, at: Time): Result<(State, bool)>
    requires Fits(d, s)
  {
    if s.run.state.Terminal() || at < s.run.command.deadlineAt then Ok((s, false))
    else RequestStop(d, s, Intent(TimedOutKind, at, Failure(RUN_TIMED_OUT, "run_deadline", "", "", "")))
  }
}
