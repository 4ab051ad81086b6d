/**
 Workflow runs, node runs and node attempts with their transition relations.

 The engine is the only holder of these records and hands out copies, so each operation is a
 function from the old record to the new one; Err is a refused operation.
 */
module Runtime {
  import opened Ids
  import opened Json

  // Nanoseconds since the zero time; 0 is the zero time itself.
  type Time = nat

  datatype NodeKind = Control | Task

  datatype NodeState =
    | Pending | Ready | Queued | Running | RetryWait
    | Succeeded | Failed | TimedOut | Skipped | Canceled
  {
    predicate Terminal() {
      Succeeded? || Failed? || TimedOut? || Skipped? || Canceled?
    }
  }

  datatype RetryKind = Initial | Business | Recovery

  datatype AttemptState =
    | AttemptQueued | AttemptRunning
    | AttemptSucceeded | AttemptFailed | AttemptTimedOut | AttemptCanceled | AttemptLost
  {
    predicate Terminal() {
      !AttemptQueued? && !AttemptRunning?
    }
  }

  datatype RunState = RunPending | RunRunning | RunSucceeded | RunFailed | RunCanceled | RunTimedOut {
    predicate Terminal() {
      !RunPending? && !RunRunning?
    }
  }

  // ---------------------------------------------------------------- transition relations

  predicate ValidRunTransition(from: RunState, to: RunState) {
    match from
    case RunPending => to.RunRunning? || to.RunCanceled? || to.RunTimedOut?
    case RunRunning => to.RunSucceeded? || to.RunFailed? || to.RunCanceled? || to.RunTimedOut?
    case _ => false
  }

  predicate ValidNodeTransition(kind: NodeKind, from: NodeState, to: NodeState) {
    if kind.Control? then from.Pending? && (to.Succeeded? || to.Failed? || to.Skipped? || to.Canceled?)
    else
      match from
      case Pending => to.Ready? || to.Failed? || to.Skipped? || to.Canceled?
      case Ready => to.Queued? || to.Canceled?
      case Queued => to.Running? || to.Canceled?
      case Running => to.RetryWait? || to.Succeeded? || to.Failed? || to.TimedOut? || to.Canceled?
      case RetryWait => to.Ready? || to.Canceled?
      case _ => false
  }

  predicate ValidAttemptTransition(from: AttemptState, to: AttemptState) {
    match from
    case AttemptQueued => to.AttemptRunning? || to.AttemptCanceled?
    case AttemptRunning => to.Terminal()
    case _ => false
  }

  // ---------------------------------------------------------------- runs

  datatype Failure = Failure(code: string, phase: string, node: Id, attempt: Id, field: string)

  datatype TerminationKind = FailedKind | CanceledKind | TimedOutKind

  datatype Intent = Intent(kind: TerminationKind, requestedAt: Time, cause: Failure)

  datatype Command = Command(runId: Id, input: Value, deadlineAt: Time, createdAt: Time)

  predicate ValidCommand(c: Command) {
    c.runId != "" && c.createdAt != 0 && c.deadlineAt > c.createdAt && c.input.Obj?
  }

  function TerminalStateOf(kind: TerminationKind): RunState {
    match kind
    case FailedKind => RunFailed
    case CanceledKind => RunCanceled
    case TimedOutKind => RunTimedOut
  }

  datatype Run = Run(
    command: Command,
    state: RunState,
    version: nat,
    nodeIds: set<Id>,
    output: Option<Value>,
    termination: Option<Intent>)
  {
    function Transition(target: RunState): Result<Run> {
      if ValidRunTransition(state, target) then Ok(this.(state := target, version := version + 1)) else Err
    }

    function Start(ids: set<Id>): Result<Run> {
      if |ids| < 2 || "" in ids then Err
      else
        var run :- Transition(RunRunning);
        Ok(run.(nodeIds := ids))
    }

    // First writer wins: a later intent leaves the run as it is and is not applied.
    function RequestTermination(intent: Intent): Result<(Run, bool)> {
      if state.Terminal() then Err
      else if intent.requestedAt == 0 || intent.cause.code == "" then Err
      else if intent.requestedAt < command.createdAt then Err
      else if state.RunPending? && intent.kind.FailedKind? then Err
      else if state.RunPending? && intent.kind.TimedOutKind? && intent.requestedAt < command.deadlineAt then Err
      else if termination.Some? then Ok((this, false))
      else Ok((this.(termination := Some(intent), version := version + 1), true))
    }

    // The callers that discard the error of RequestTermination.
    function Terminate(intent: Intent): Run {
      match RequestTermination(intent)
      case Ok((run, _)) => run
      case Err => this
    }

    function CompleteTermination(nodes: map<Id, NodeRun>): Result<Run> {
      if termination.None? || nodes.Keys != nodeIds then Err
      else if exists n :: n in nodes && !nodes[n].state.Terminal() then Err
      else Transition(TerminalStateOf(termination.value.kind))
    }
  }

  function NewRun(c: Command): Result<Run> {
    if ValidCommand(c) then Ok(Run(c, RunPending, 1, {}, None, None)) else Err
  }

  // ---------------------------------------------------------------- node runs

  datatype NodeRun = NodeRun(
    kind: NodeKind,
    state: NodeState,
    version: nat,
    activated: bool,
    route: string,
    inputs: map<string, Value>,
    outputs: map<string, Value>,
    effective: Id,
    current: Id,
    nextSeq: nat,
    business: nat,
    recovery: nat,
    nextKind: RetryKind,
    nextRetryAt: Time,
    failure: Option<Failure>,
    cancelReason: string)
  {
    function Transition(target: NodeState): Result<NodeRun> {
      if ValidNodeTransition(kind, state, target) then Ok(this.(state := target, version := version + 1)) else Err
    }

    function Activate(): Result<NodeRun> {
      if !state.Pending? then Err
      else Ok(if activated then this else this.(activated := true, version := version + 1))
    }

    function BecomeReady(values: map<string, Value>): Result<NodeRun> {
      if kind.Control? || !activated then Err
      else
        var node :- Transition(Ready);
        Ok(node.(inputs := values))
    }

    function Skip(): Result<NodeRun> {
      if activated then Err else Transition(Skipped)
    }

    function SucceedControl(selected: string, values: map<string, Value>): Result<NodeRun> {
      if kind.Task? || !activated then Err
      else
        var node :- Transition(Succeeded);
        Ok(node.(route := selected, outputs := values))
    }

    function FailControl(cause: Failure): Result<NodeRun> {
      if kind.Task? || cause.code == "" then Err
      else
        var node :- Transition(Failed);
        Ok(node.(failure := Some(cause)))
    }

    function FailBeforeAttempt(cause: Failure): Result<NodeRun> {
      if kind.Control? || !activated || current != "" || cause.code == "" then Err
      else
        var node :- Transition(Failed);
        Ok(node.(failure := Some(cause)))
    }

    function QueueAttempt(attempt: Id): Result<NodeRun> {
      if kind.Control? || attempt == "" then Err
      else
        var node :- Transition(Queued);
        var counted := if nextKind.Recovery? then node.(recovery := recovery + 1) else node.(business := business + 1);
        Ok(counted.(nextSeq := nextSeq + 1, current := attempt, nextRetryAt := 0))
    }

    function AttemptStarted(attempt: Id): Result<NodeRun> {
      if current != attempt then Err else Transition(Running)
    }

    function WaitForRetry(attempt: Id, next: RetryKind, dueAt: Time): Result<NodeRun> {
      if current != attempt || next.Initial? || dueAt == 0 then Err
      else
        var node :- Transition(RetryWait);
        Ok(node.(nextKind := next, nextRetryAt := dueAt))
    }

    // A due time that has not come leaves the node waiting.
    function RetryDue(at: Time): Result<NodeRun> {
      if !state.RetryWait? || at == 0 || at < nextRetryAt then Ok(this)
      else
        var node :- Transition(Ready);
        Ok(node.(nextRetryAt := 0))
    }

    function SucceedAttempt(attempt: Id, values: map<string, Value>): Result<NodeRun> {
      if kind.Control? || current != attempt then Err
      else
        var node :- Transition(Succeeded);
        Ok(node.(effective := attempt, outputs := values))
    }

    function FailAttempt(attempt: Id, target: NodeState, cause: Failure): Result<NodeRun> {
      if kind.Control? || current != attempt || cause.code == "" || !(target.Failed? || target.TimedOut?) then Err
      else
        var node :- Transition(target);
        Ok(node.(failure := Some(cause)))
    }

    function Cancel(reason: string): Result<NodeRun> {
      if reason == "" then Err
      else
        var node :- Transition(Canceled);
        Ok(node.(cancelReason := reason))
    }
  }

  function NewNodeRun(kind: NodeKind): NodeRun {
    NodeRun(kind, Pending, 1, false, "", map[], map[], "", "", 0, 0, 0, Initial, 0, None, "")
  }

  // Succeeds the end node and the run together, or changes neither.
  function CompleteWorkflowSuccess(run: Run, end: Id, nodes: map<Id, NodeRun>, output: Value): Result<(Run, NodeRun)>
    requires end in nodes
  {
    var node := nodes[end];
    if !run.state.RunRunning? || run.termination.Some? || node.kind.Task? || !node.activated || !node.state.Pending? then Err
    else if nodes.Keys != run.nodeIds then Err
    else if exists n :: n in nodes && n != end && !nodes[n].state.Succeeded? && !nodes[n].state.Skipped? then Err
    else if !output.Obj? then Err
    else Ok((run.(output := Some(output), state := RunSucceeded, version := run.version + 1),
             node.(state := Succeeded, version := node.version + 1)))
  }

  // ---------------------------------------------------------------- attempts

  datatype AttemptResult = AttemptResult(
    state: AttemptState, outputs: map<string, Value>, code: string, message: string, field: string)

  datatype Attempt = Attempt(
    node: Id, sequence: nat, kind: RetryKind, state: AttemptState, version: nat, result: Option<AttemptResult>)
  {
    function Transition(target: AttemptState): Result<Attempt> {
      if ValidAttemptTransition(state, target) then Ok(this.(state := target, version := version + 1)) else Err
    }

    function Start(): Result<Attempt> {
      Transition(AttemptRunning)
    }

    function Complete(r: AttemptResult): Result<Attempt> {
      if state.Terminal() then (if result == Some(r) then Ok(this) else Err)
      else if !r.state.Terminal() then Err
      else if r.state.AttemptSucceeded? && r.code != "" then Err
      else if !r.state.AttemptSucceeded? && r.code == "" then Err
      else
        var attempt :- Transition(r.state);
        Ok(attempt.(result := Some(r)))
    }
  }

  function NewAttempt(node: Id, sequence: nat, kind: RetryKind): Result<Attempt> {
    if node == "" || sequence == 0 then Err else Ok(Attempt(node, sequence, kind, AttemptQueued, 1, None))
  }

  // ---------------------------------------------------------------- restoring persisted records

  function RestoreRun(record: Run): Result<Run> {
    if record.version == 0 || !ValidCommand(record.command) then Err
    else if record.state.RunPending? && record.nodeIds != {} then Err
    else if !record.state.RunPending?
            && !(record.state.RunFailed? && record.nodeIds == {} && record.termination.Some?)
            && !((record.state.RunCanceled? || record.state.RunTimedOut?) && record.nodeIds == {} && record.termination.Some?)
            && |record.nodeIds| < 2 then Err
    else if "" in record.nodeIds then Err
    else if record.output.Some? && !record.output.value.Obj? then Err
    else if record.state.Terminal() && !record.state.RunSucceeded? && record.termination.None? then Err
    else if record.state.RunSucceeded? && (record.termination.Some? || record.output.None?) then Err
    else Ok(record)
  }

  function RestoreNode(record: NodeRun): Result<NodeRun> {
    if record.version == 0 then Err
    else if record.state.Skipped? && record.activated then Err
    else if record.effective != "" && !record.state.Succeeded? then Err
    else if record.kind.Control? && (record.current != "" || record.effective != "" || record.nextSeq != 0) then Err
    else Ok(record)
  }

  function RestoreAttempt(record: Attempt): Result<Attempt> {
    if record.node == "" || record.sequence == 0 || record.version == 0 then Err
    else if record.state.Terminal() != record.result.Some? then Err
    else if record.result.Some? && record.result.value.state != record.state then Err
    else Ok(record)
  }
}
