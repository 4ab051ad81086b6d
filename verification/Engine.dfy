/**
 The engine as it runs: one object per run that updates its records and edges in place.  Every
 method is proved to do what EngineSpec says, so the theorems about runs hold of it.
 */
module EngineObject {
  import opened Ids
  import opened Json
  import opened Runtime
  import opened Workflow
  import opened EngineInvariants
  import opened EngineDrive
  import opened EngineSafety
  import Spec = EngineSpec
  import R = EngineRestore
  import B = Branch

  // The outcome of one visit of the driving loop.
  datatype Visited = Idle | Moved | Tripped | Broken

  ghost predicate Shows(v: Visited, state: State, step: Spec.Step) {
    match step
    case Idle(s) => v == Idle && state == s
    case Moved(s) => v == Moved && state == s
    case Tripped(s) => v == Tripped && state == s
    case Broken => v == Broken
  }

  // The outcome of a pass of which a part is done already.
  ghost function After(changed: bool, rest: Spec.Step): Spec.Step {
    if changed && rest.Idle? then Spec.Moved(rest.s) else rest
  }

  class Engine {
    const doc: Doc
    var run: Run
    var nodes: map<Id, NodeRun>
    var attempts: map<Id, Attempt>
    var edges: seq<EdgeState>

    function State(): State
      reads this
    {
      Workflow.State.State(run, nodes, attempts, edges)
    }

    ghost predicate Fitting()
      reads this
    {
      Fits(doc, State())
    }

    // The state is one that a run of the definition can reach.
    ghost predicate Valid()
      reads this
    {
      Fits(doc, State()) && Inv(doc, State())
    }

    // A run none of whose nodes has been visited.
    constructor (d: Doc, started: Run)
      ensures doc == d && State() == Spec.Blank(d, started)
    {
      doc := d;
      run := started;
      nodes := map n | n in d.nodes :: NewNodeRun(d.nodes[n].Kind());
      attempts := map[];
      edges := seq(|d.edges|, i => EdgePending);
    }

    // ---------------------------------------------------------------- edges

    method SettleOutgoing(n: Id, route: string)
      requires Fitting() && n in nodes
      modifies this`edges
      ensures State() == Spec.Settle(doc, old(State()), n, route)
    {
      var i := 0;
      while i < |doc.edges|
        invariant 0 <= i <= |doc.edges| == |edges|
        invariant forall k :: 0 <= k < i ==> edges[k] == Spec.SettledEdges(doc, old(State()), n, route)[k]
        invariant forall k :: i <= k < |edges| ==> edges[k] == old(edges)[k]
      {
        if doc.edges[i].source == n {
          var settled := EdgeInactive;
          if nodes[n].state.Succeeded? {
            if doc.edges[i].activation.Always? || doc.edges[i].activation.route == route {
              settled := EdgeActive;
            }
          }
          edges := edges[i := settled];
        }
        i := i + 1;
      }
    }

    method IncomingSettled(n: Id) returns (settled: bool)
      requires Fitting()
      ensures settled == Spec.AllIncomingSettled(doc, State(), n)
    {
      for i := 0 to |doc.edges|
        invariant forall k :: 0 <= k < i && doc.edges[k].target == n ==> !edges[k].EdgePending?
      {
        if doc.edges[i].target == n && edges[i].EdgePending? {
          return false;
        }
      }
      return true;
    }

    method IncomingActive(n: Id) returns (active: bool)
      requires Fitting()
      ensures active == Spec.AnyIncomingActive(doc, State(), n)
    {
      for i := 0 to |doc.edges|
        invariant forall k :: 0 <= k < i && doc.edges[k].target == n ==> !edges[k].EdgeActive?
      {
        if doc.edges[i].target == n && edges[i].EdgeActive? {
          return true;
        }
      }
      return false;
    }

    // ---------------------------------------------------------------- records

    // The bindings are walked in any order; a refusal wins over a wait.
    method ResolveInputs(def: NodeDef) returns (inputs: Spec.Inputs)
      ensures inputs == Spec.ResolveInputs(State(), def)
    {
      var rest := def.inputs.Keys;
      var values: map<string, Value> := map[];
      var waiting := false;
      while rest != {}
        invariant rest <= def.inputs.Keys && values.Keys <= def.inputs.Keys - rest
        invariant forall k :: k in def.inputs.Keys - rest ==> !Spec.Bind(State(), def.inputs[k]).Unbound?
        invariant forall k :: k in def.inputs.Keys - rest ==> (Spec.Bind(State(), def.inputs[k]).Has? <==> k in values)
        invariant forall k :: k in values ==> values[k] == Spec.Bind(State(), def.inputs[k]).value
        invariant waiting <==> exists k :: k in def.inputs.Keys - rest && Spec.Bind(State(), def.inputs[k]).Waiting?
        decreases |rest|
      {
        var k :| k in rest;
        match Spec.Bind(State(), def.inputs[k]) {
          case Has(v) => values := values[k := v];
          case Waiting => waiting := true;
          case Unbound => return Spec.Refused;
        }
        rest := rest - {k};
      }
      if waiting { return Spec.NotReady; }
      assert values == map k | k in def.inputs :: Spec.Bind(State(), def.inputs[k]).value;
      return Spec.Resolved(values);
    }

    method OthersTerminal(except: Id) returns (all: bool)
      ensures all == Spec.OthersTerminal(State(), except)
    {
      var rest := nodes.Keys;
      while rest != {}
        invariant rest <= nodes.Keys
        invariant forall m :: m in nodes && m !in rest && m != except ==> nodes[m].state.Terminal()
        decreases |rest|
      {
        var m :| m in rest;
        if m != except && !nodes[m].state.Terminal() {
          return false;
        }
        rest := rest - {m};
      }
      return true;
    }

    method NodesTerminal() returns (all: bool)
      ensures all == Spec.AllTerminal(State())
    {
      var rest := nodes.Keys;
      while rest != {}
        invariant rest <= nodes.Keys
        invariant forall m :: m in nodes && m !in rest ==> nodes[m].state.Terminal()
        decreases |rest|
      {
        var m :| m in rest;
        if !nodes[m].state.Terminal() {
          return false;
        }
        rest := rest - {m};
      }
      return true;
    }

    // ---------------------------------------------------------------- visiting a node

    // Records that n failed and asks the run to terminate, whatever becomes of the request.
    method Trip(n: Id, failed: Result<NodeRun>, cause: Failure, at: Time) returns (v: Visited)
      modifies this`nodes, this`run
      ensures Shows(v, State(), Spec.Trip(old(State()), n, failed, cause, at))
    {
      if failed.Err? { return Broken; }
      nodes := nodes[n := failed.value];
      run := run.Terminate(Intent(FailedKind, Spec.AtOrCreated(at, run), cause));
      return Tripped;
    }

    method FireBranch(n: Id, value: Value, at: Time) returns (v: Visited)
      requires Fitting() && n in nodes && doc.nodes[n].op.BranchOp?
      modifies this
      ensures Shows(v, State(), Spec.FireBranch(doc, old(State()), n, value, at))
    {
      hide Spec.SettledEdges;
      var taken := B.EvaluateBranch(doc.nodes[n].op.cases, doc.nodes[n].op.fallback, value);
      match taken {
        case PathNotFound =>
          var cause := Failure(Spec.BRANCH_PATH, "control_evaluation", n, "", "operation.config");
          v := Trip(n, nodes[n].FailControl(cause), cause, at);
        case OperatorMismatch =>
          var cause := Failure(Spec.BRANCH_OPERATOR, "control_evaluation", n, "", "operation.config");
          v := Trip(n, nodes[n].FailControl(cause), cause, at);
        case Took(route) =>
          var succeeded := nodes[n].SucceedControl(route, map[]);
          if succeeded.Err? { return Broken; }
          nodes := nodes[n := succeeded.value];
          SettleOutgoing(n, route);
          v := Moved;
      }
    }

    method FireEnd(n: Id, output: Value) returns (v: Visited)
      requires n in nodes
      modifies this`nodes, this`run
      ensures Shows(v, State(), Spec.FireEnd(old(State()), n, output))
    {
      var others := OthersTerminal(n);
      if !others { return Idle; }
      var done := CompleteWorkflowSuccess(run, n, nodes, output);
      if done.Err? { return Broken; }
      run := done.value.0;
      nodes := nodes[n := done.value.1];
      return Moved;
    }

    method Fire(n: Id, at: Time) returns (v: Visited)
      requires Fitting() && n in nodes
      modifies this
      ensures Shows(v, State(), Spec.Fire(doc, old(State()), n, at))
    {
      hide Spec.ResolveInputs, Spec.FireBranch, Spec.FireEnd, Spec.Trip;
      var inputs := ResolveInputs(doc.nodes[n]);
      match inputs {
        case Refused =>
          var cause := Failure(Spec.INPUT_CONTRACT, "input_binding", n, "", "inputs");
          if nodes[n].kind.Control? {
            v := Trip(n, nodes[n].FailControl(cause), cause, at);
          } else {
            v := Trip(n, nodes[n].FailBeforeAttempt(cause), cause, at);
          }
        case NotReady => v := Idle;
        case Resolved(values) =>
          match doc.nodes[n].op {
            case TaskOp =>
              var ready := nodes[n].BecomeReady(values);
              if ready.Err? { return Broken; }
              nodes := nodes[n := ready.value];
              v := Moved;
            case BranchOp(_, _) => v := FireBranch(n, if "value" in values then values["value"] else Null, at);
            case EndOp => v := FireEnd(n, if "workflow_output" in values then values["workflow_output"] else Null);
            case StartOp => v := Broken;
          }
      }
    }

    method Visit(n: Id, at: Time) returns (v: Visited)
      requires Fitting() && n in nodes
      modifies this
      ensures Shows(v, State(), Spec.Visit(doc, old(State()), n, at))
    {
      hide Spec.AllIncomingSettled, Spec.AnyIncomingActive, Spec.Fire, Spec.SettledEdges;
      if !nodes[n].state.Pending? || n == doc.entry { return Idle; }
      var settled := IncomingSettled(n);
      if !settled { return Idle; }
      var active := IncomingActive(n);
      if !active {
        var skipped := nodes[n].Skip();
        if skipped.Err? { return Broken; }
        nodes := nodes[n := skipped.value];
        SettleOutgoing(n, "");
        return Moved;
      }
      var activated := nodes[n].Activate();
      if activated.Err? { return Broken; }
      nodes := nodes[n := activated.value];
      v := Fire(n, at);
    }

    // ---------------------------------------------------------------- driving

    // One pass over the nodes in ascending order; a failing node ends it at once.
    method Pass(ids: seq<Id>, at: Time) returns (v: Visited)
      requires Fitting() && forall k :: 0 <= k < |ids| ==> ids[k] in doc.nodes
      modifies this
      ensures Shows(v, State(), Spec.Pass(doc, old(State()), ids, 0, at))
      ensures v != Broken ==> Fitting()
    {
      hide Spec.Visit;
      var changed := false;
      var i := 0;
      while i < |ids|
        invariant 0 <= i <= |ids| && Fitting()
        invariant Spec.Pass(doc, old(State()), ids, 0, at) == After(changed, Spec.Pass(doc, State(), ids, i, at))
      {
        ghost var before := State();
        Spec.VisitFits(doc, before, ids[i], at);
        v := Visit(ids[i], at);
        if v == Tripped || v == Broken { return; }
        changed := changed || v == Moved;
        i := i + 1;
      }
      v := if changed then Moved else Idle;
    }

    // Cancels every open node whose attempt is not out, and ends the run when no node is open.
    method WindUp(ids: seq<Id>) returns (ok: bool)
      requires Fitting() && run.termination.Some? && ids == Listing(doc.nodes.Keys)
      modifies this
      ensures ok <==> Spec.Wind(doc, old(State())).Ok?
      ensures ok ==> Spec.Wind(doc, old(State())) == Ok(State())
      ensures !ok && Spec.AllTerminal(old(State())) ==> State() == old(State())
    {
      hide Spec.SettledEdges;
      Spec.ListingInside(doc);
      var reason := Spec.CancelReason(run.termination.value.kind);
      var i := 0;
      while i < |ids|
        invariant 0 <= i <= |ids| && Fitting() && run == old(run)
        invariant Spec.Sweep(doc, old(State()), ids, 0, reason) == Spec.Sweep(doc, State(), ids, i, reason)
        invariant Spec.AllTerminal(old(State())) ==> State() == old(State())
      {
        var n := ids[i];
        var node := nodes[n];
        if !node.state.Terminal() &&
           !((node.state.Queued? || node.state.Running?) && node.current in attempts && !attempts[node.current].state.Terminal()) {
          var canceled := node.Cancel(reason);
          if canceled.Err? { return false; }
          nodes := nodes[n := canceled.value];
          SettleOutgoing(n, "");
        }
        i := i + 1;
      }
      var over := NodesTerminal();
      if over {
        var done := run.CompleteTermination(nodes);
        if done.Err? { return false; }
        run := done.value;
      }
      return true;
    }

    // Repeats passes until one changes nothing, the run is over, or it has to be wound up.
    method Drive(at: Time) returns (ok: bool)
      requires Fitting()
      modifies this
      ensures ok <==> Spec.Drive(doc, old(State()), at).Ok?
      ensures ok ==> Spec.Drive(doc, old(State()), at) == Ok(State())
      ensures !ok && old(run.termination.Some?) && Spec.AllTerminal(old(State())) ==> State() == old(State())
    {
      hide Spec.Pass, Spec.Wind;
      Spec.ListingInside(doc);
      while true
        invariant Fitting() && Spec.Drive(doc, State(), at) == Spec.Drive(doc, old(State()), at)
        invariant old(run.termination.Some?) ==> State() == old(State())
        decreases Spec.Pendings(State())
      {
        var ids := SortIds(nodes.Keys);
        AscendingUnique(ids, Listing(doc.nodes.Keys));
        if run.termination.Some? {
          ok := WindUp(ids);
          return;
        }
        Spec.PassFits(doc, State(), ids, 0, at);
        var v := Pass(ids, at);
        if v == Broken { return false; }
        if v == Idle || (v == Moved && run.state.Terminal()) { return true; }
      }
    }

    // ---------------------------------------------------------------- operations

    // Queues the next attempt of a ready task.
    method QueueNode(n: Id, a: Id) returns (ok: bool)
      requires Valid()
      modifies this`nodes, this`attempts
      ensures Valid() && State() == Apply(doc, old(State()), Queue(n, a))
      ensures ok <==> Spec.QueueNode(old(State()), n, a).Ok?
    {
      hide Inv;
      ApplyKeeps(doc, State(), Queue(n, a));
      QueueKeeps(doc, State(), n, a);
      if run.termination.Some? || a in attempts || n !in nodes { return false; }
      var queued := nodes[n].QueueAttempt(a);
      if queued.Err? { return false; }
      var attempt := NewAttempt(n, queued.value.nextSeq, nodes[n].nextKind);
      if attempt.Err? { return false; }
      nodes := nodes[n := queued.value];
      attempts := attempts[a := attempt.value];
      InvFits(doc, State());
      return true;
    }

    method StartAttempt(a: Id) returns (ok: bool)
      requires Valid()
      modifies this`nodes, this`attempts
      ensures Valid() && State() == Apply(doc, old(State()), Start(a))
      ensures ok <==> Spec.StartAttempt(old(State()), a).Ok?
    {
      hide Inv;
      ApplyKeeps(doc, State(), Start(a));
      StartKeeps(doc, State(), a);
      if a !in attempts { return false; }
      if attempts[a].state.AttemptRunning? { return true; }
      var started := attempts[a].Start();
      if started.Err? { return false; }
      var n := started.value.node;
      if n !in nodes { return false; }
      var node := nodes[n].AttemptStarted(a);
      if node.Err? { return false; }
      attempts := attempts[a := started.value];
      nodes := nodes[n := node.value];
      InvFits(doc, State());
      return true;
    }

    // Records the terminal fact of an attempt; accepted says whether it was new.
    method RecordAttemptResult(a: Id, r: AttemptResult) returns (ok: bool, accepted: bool)
      requires Valid()
      modifies this`attempts
      ensures Valid() && State() == Apply(doc, old(State()), Record(a, r))
      ensures ok <==> Spec.RecordResult(old(State()), a, r).Ok?
      ensures ok ==> accepted == Spec.RecordResult(old(State()), a, r).value.1
    {
      hide Inv;
      ApplyKeeps(doc, State(), Record(a, r));
      if a !in attempts || attempts[a].node !in nodes { return false, false; }
      if nodes[attempts[a].node].current != a { return true, false; }
      if attempts[a].result.Some? { return attempts[a].result == Some(r), false; }
      var completed := attempts[a].Complete(r);
      if completed.Err? { return false, false; }
      attempts := attempts[a := completed.value];
      return true, true;
    }

    method AcceptSuccess(n: Id, a: Id, values: map<string, Value>) returns (ok: bool)
      requires Fitting() && n in nodes
      modifies this`nodes, this`edges
      ensures ok <==> Spec.AcceptSuccess(doc, old(State()), n, a, values).Ok?
      ensures ok ==> Spec.AcceptSuccess(doc, old(State()), n, a, values) == Ok(State())
      ensures !ok ==> State() == old(State())
    {
      var valid := ValidateOutputs(doc.nodes[n], values);
      if !valid { return false; }
      var succeeded := nodes[n].SucceedAttempt(a, values);
      if succeeded.Err? { return false; }
      nodes := nodes[n := succeeded.value];
      SettleOutgoing(n, "");
      return true;
    }

    static method ValidateOutputs(def: NodeDef, values: map<string, Value>) returns (ok: bool)
      ensures ok == Spec.ValidOutputs(def, values)
    {
      if |values| != |def.outputs| { return false; }
      var rest := def.outputs.Keys;
      while rest != {}
        invariant rest <= def.outputs.Keys
        invariant forall k :: k in def.outputs && k !in rest ==>
                    k in values && RuntimeType(values[k]).Some? && Compatible(RuntimeType(values[k]).value, def.outputs[k])
        decreases |rest|
      {
        var k :| k in rest;
        if k !in values || RuntimeType(values[k]).None? || !Compatible(RuntimeType(values[k]).value, def.outputs[k]) {
          return false;
        }
        rest := rest - {k};
      }
      return true;
    }

    // Fails node n for good and asks the run to terminate, whatever becomes of the request.
    method FailNode(n: Id, failed: Result<NodeRun>, cause: Failure, at: Time) returns (ok: bool)
      modifies this`nodes, this`run
      ensures ok <==> Spec.FailNode(old(State()), n, failed, cause, at).Ok?
      ensures ok ==> Spec.FailNode(old(State()), n, failed, cause, at) == Ok(State())
    {
      if failed.Err? { return false; }
      nodes := nodes[n := failed.value];
      run := run.Terminate(Intent(FailedKind, at, cause));
      return true;
    }

    // What the recorded result does to its node while nobody asked the run to stop.
    method Conclude(n: Id, a: Id, r: AttemptResult, at: Time) returns (ok: bool)
      requires Fitting() && n in nodes
      modifies this
      ensures ok <==> Spec.Conclude(doc, old(State()), n, a, r, at).Ok?
      ensures ok ==> Spec.Conclude(doc, old(State()), n, a, r, at) == Ok(State())
    {
      hide Spec.AcceptSuccess, Spec.FailNode;
      var cause := Failure(if r.state.AttemptTimedOut? && r.code == "" then Spec.NODE_TIMEOUT else r.code, "node_execution", n, a, r.field);
      match r.state {
        case AttemptSucceeded =>
          ok := AcceptSuccess(n, a, r.outputs);
          if !ok {
            var broken := Failure(Spec.OUTPUT_CONTRACT, "output_binding", n, a, "outputs");
            ok := FailNode(n, nodes[n].FailAttempt(a, Failed, broken), broken, at);
          }
        case AttemptCanceled => ok := FailNode(n, nodes[n].Cancel(Spec.NODE_FAILED), cause, at);
        case AttemptTimedOut => ok := FailNode(n, nodes[n].FailAttempt(a, TimedOut, cause), cause, at);
        case AttemptFailed => ok := FailNode(n, nodes[n].FailAttempt(a, Failed, cause), cause, at);
        case AttemptLost => ok := FailNode(n, nodes[n].FailAttempt(a, Failed, cause), cause, at);
        case _ => ok := false;
      }
    }

    // The same while the run is terminating.
    method ConcludeWinding(n: Id, a: Id, r: AttemptResult) returns (ok: bool)
      requires Fitting() && n in nodes && run.termination.Some?
      modifies this`nodes, this`edges
      ensures ok <==> Spec.ConcludeWinding(doc, old(State()), n, a, r).Ok?
      ensures ok ==> Spec.ConcludeWinding(doc, old(State()), n, a, r) == Ok(State())
    {
      hide Spec.AcceptSuccess;
      if r.state.AttemptSucceeded? {
        ok := AcceptSuccess(n, a, r.outputs);
        if ok { return; }
      }
      var canceled := nodes[n].Cancel(Spec.CancelReason(run.termination.value.kind));
      if canceled.Err? { return false; }
      nodes := nodes[n := canceled.value];
      return true;
    }

    // Advances the run by a recorded result: accepts, retries, or fails the node, and drives.
    method HandleAttemptCompleted(a: Id, at: Time) returns (ok: bool)
      requires Valid()
      modifies this
      ensures Valid() && State() == Apply(doc, old(State()), Completed(a, at))
      ensures ok <==> Spec.HandleCompleted(doc, old(State()), a, at).Ok?
    {
      hide Inv, Spec.Conclude, Spec.ConcludeWinding, Spec.Drive, Spec.RetryAs;
      ApplyKeeps(doc, State(), Completed(a, at));
      HandleKeeps(doc, State(), a, at);
      if a !in attempts || at == 0 || at < run.command.createdAt || attempts[a].result.None? || attempts[a].node !in nodes { return false; }
      var n, r := attempts[a].node, attempts[a].result.value;
      var node := nodes[n];
      if node.current != a || node.state.Terminal() || node.state.RetryWait? || node.state.Ready? { return true; }
      Spec.ConcludeFits(doc, State(), n, a, r, at);
      if run.termination.Some? {
        ok := ConcludeWinding(n, a, r);
        if ok { ok := Drive(at); }
      } else {
        var retry := Spec.RetryAs(doc.nodes[n], node, r);
        if retry.Some? {
          var waiting := node.WaitForRetry(a, retry.value, at + doc.nodes[n].policy.delay);
          if waiting.Err? { return false; }
          nodes := nodes[n := waiting.value];
          ok := true;
        } else {
          ok := Conclude(n, a, r, at);
          if ok { ok := Drive(at); }
        }
      }
      InvFits(doc, State());
    }

    method RetryDue(n: Id, at: Time) returns (ok: bool)
      requires Valid()
      modifies this
      ensures Valid() && State() == Apply(doc, old(State()), Due(n, at))
      ensures ok <==> Spec.RetryDue(doc, old(State()), n, at).Ok?
    {
      hide Inv, Spec.Drive;
      ApplyKeeps(doc, State(), Due(n, at));
      RetryDueKeeps(doc, State(), n, at);
      if run.termination.Some? {
        TerminatingRun(doc, State());
        ok := Drive(at);
      } else if n !in nodes {
        ok := false;
      } else if !nodes[n].state.RetryWait? {
        ok := true;
      } else {
        var due := nodes[n].RetryDue(at);
        if due.Err? { return false; }
        nodes := nodes[n := due.value];
        ok := true;
      }
      InvFits(doc, State());
    }

    // Asks for termination and drives; applied says whether this intent is the one recorded.
    method RequestStop(intent: Intent) returns (ok: bool, applied: bool)
      requires Valid() && intent.cause.code != ""
      modifies this
      ensures Valid()
      ensures ok <==> Spec.RequestStop(doc, old(State()), intent).Ok?
      ensures ok ==> Spec.RequestStop(doc, old(State()), intent) == Ok((State(), applied))
      ensures !ok ==> State() == old(State())
    {
      hide Inv, Spec.Drive;
      RequestStopKeeps(doc, State(), intent);
      if run.state.Terminal() { return true, false; }
      var requested := run.RequestTermination(intent);
      if requested.Err? { return false, false; }
      run, applied := requested.value.0, requested.value.1;
      ok := Drive(intent.requestedAt);
      InvFits(doc, State());
    }

    method RequestCancel(at: Time) returns (ok: bool, applied: bool)
      requires Valid()
      modifies this
      ensures Valid() && State() == Apply(doc, old(State()), Cancel(at))
      ensures ok <==> Spec.RequestCancel(doc, old(State()), at).Ok?
      ensures ok ==> applied == Spec.RequestCancel(doc, old(State()), at).value.1
    {
      hide Inv, Spec.RequestStop;
      ok, applied := RequestStop(Intent(CanceledKind, at, Failure(Spec.RUN_CANCELED, "run_control", "", "", "")));
    }

    method DeadlineReached(at: Time) returns (ok: bool, applied: bool)
      requires Valid()
      modifies this
      ensures Valid() && State() == Apply(doc, old(State()), Deadline(at))
      ensures ok <==> Spec.DeadlineReached(doc, old(State()), at).Ok?
      ensures ok ==> applied == Spec.DeadlineReached(doc, old(State()), at).value.1
    {
      hide Inv, Spec.RequestStop;
      if run.state.Terminal() || at < run.command.deadlineAt { return true, false; }
      ok, applied := RequestStop(Intent(TimedOutKind, at, Failure(Spec.RUN_TIMED_OUT, "run_deadline", "", "", "")));
    }

    // ---------------------------------------------------------------- persisting and restoring

    // The node records in ascending order of their ids.
    method SaveNodes() returns (entries: seq<R.NodeEntry>)
      ensures entries == R.SnapshotState(State()).nodes
    {
      var ids := SortIds(nodes.Keys);
      AscendingUnique(ids, Listing(nodes.Keys));
      R.ListingIn(nodes.Keys);
      entries := [];
      for i := 0 to |ids|
        invariant entries == R.NodeEntries(nodes, ids[..i])
      {
        assert ids[..i + 1][..i] == ids[..i];
        entries := entries + [R.NodeEntry(ids[i], nodes[ids[i]])];
      }
      assert ids[..|ids|] == ids;
    }

    method SaveAttempts() returns (entries: seq<R.AttemptEntry>)
      ensures entries == R.SnapshotState(State()).attempts
    {
      var ids := SortIds(attempts.Keys);
      AscendingUnique(ids, Listing(attempts.Keys));
      R.ListingIn(attempts.Keys);
      entries := [];
      for i := 0 to |ids|
        invariant entries == R.AttemptEntries(attempts, ids[..i])
      {
        assert ids[..i + 1][..i] == ids[..i];
        entries := entries + [R.AttemptEntry(ids[i], attempts[ids[i]])];
      }
      assert ids[..|ids|] == ids;
    }

    // What is persisted of the run.
    method SnapshotState() returns (saved: R.Saved)
      ensures saved == R.SnapshotState(State())
    {
      hide R.NodeEntries, R.AttemptEntries;
      var savedNodes := SaveNodes();
      var savedAttempts := SaveAttempts();
      saved := R.Saved(run, savedNodes, savedAttempts);
    }

    // Reads the edges off the settled nodes.
    method RebuildEdges()
      requires Fitting()
      modifies this`edges
      ensures State() == old(State()).(edges := R.Rebuilt(doc, nodes))
    {
      edges := seq(|doc.edges|, i => EdgePending);
      var ids := SortIds(nodes.Keys);
      var i := 0;
      while i < |ids|
        invariant 0 <= i <= |ids| && Fitting()
        invariant forall k :: 0 <= k < |edges| ==>
                    edges[k] == if doc.edges[k].source in ids[..i] then R.Rebuilt(doc, nodes)[k] else EdgePending
      {
        assert ids[i] in Elements(ids);
        assert ids[..i + 1] == ids[..i] + [ids[i]];
        if nodes[ids[i]].state.Terminal() {
          SettleOutgoing(ids[i], nodes[ids[i]].route);
        }
        i := i + 1;
      }
      forall k | 0 <= k < |edges| ensures edges[k] == R.Rebuilt(doc, nodes)[k] {
        if doc.edges[k].source in nodes {
          assert doc.edges[k].source in Elements(ids);
        }
      }
      assert edges == R.Rebuilt(doc, nodes);
    }
  }

  // Creates the engine of a fresh run; accepted is the verdict of the definition contract.
  method New(d: Doc, accepted: bool, c: Command) returns (e: Engine?)
    requires accepted <==> ValidDoc(d)
    ensures e == null <==> Spec.New(d, c).Err?
    ensures e != null ==> fresh(e) && e.doc == d && e.Valid() && Spec.New(d, c) == Ok(e.State())
  {
    hide ValidDoc, Inv, Spec.Drive, Spec.SettledEdges;
    NewKeeps(d, c);
    if !accepted { return null; }
    DocEntry(d);
    var run := NewRun(c);
    if run.Err? { return null; }
    var started := run.value.Start(d.nodes.Keys);
    if started.Err? { return null; }
    e := new Engine(d, started.value);
    var active := e.nodes[d.entry].Activate();
    if active.Err? { return null; }
    var entry := active.value.SucceedControl("", map["workflow_input" := c.input]);
    if entry.Err? { return null; }
    e.nodes := e.nodes[d.entry := entry.value];
    e.SettleOutgoing(d.entry, "");
    var ok := e.Drive(0);
    if !ok { return null; }
    InvFits(d, e.State());
  }

  lemma DocEntry(d: Doc)
    requires ValidDoc(d)
    ensures d.entry in d.nodes
  {
  }

  method RestoreNodes(d: Doc, run: Run, entries: seq<R.NodeEntry>) returns (ok: bool, nodes: map<Id, NodeRun>)
    ensures ok <==> R.UsableNodes(d, run, entries)
    ensures ok ==> nodes == R.NodesOf(d, run, entries)
  {
    nodes := map[];
    for i := 0 to |entries|
      invariant R.UsableNodes(d, run, entries[..i]) && nodes == R.NodesOf(d, run, entries[..i])
      invariant nodes.Keys == set k | 0 <= k < i :: entries[k].id
    {
      var entry := entries[i];
      var node := R.Refilled(d, run, entry);
      if entry.id !in d.nodes || entry.record.kind != d.nodes[entry.id].Kind() || RestoreNode(node).Err? || entry.id in nodes {
        assert entry.id in nodes ==> exists k :: 0 <= k < i && entries[k].id == entries[i].id;
        return false, map[];
      }
      assert entries[..i + 1][..i] == entries[..i] && entries[..i + 1][i] == entry;
      nodes := nodes[entry.id := node];
    }
    assert entries[..|entries|] == entries;
    ok := true;
  }

  method RestoreAttempts(nodes: map<Id, NodeRun>, entries: seq<R.AttemptEntry>) returns (ok: bool, attempts: map<Id, Attempt>)
    ensures ok <==> R.UsableAttempts(nodes, entries)
    ensures ok ==> attempts == R.AttemptsFrom(entries)
  {
    attempts := map[];
    for i := 0 to |entries|
      invariant R.UsableAttempts(nodes, entries[..i]) && attempts == R.AttemptsFrom(entries[..i])
      invariant attempts.Keys == set k | 0 <= k < i :: entries[k].id
    {
      var entry := entries[i];
      if entry.id == "" || RestoreAttempt(entry.record).Err? || entry.record.node !in nodes || entry.id in attempts {
        assert entry.id in attempts ==> exists k :: 0 <= k < i && entries[k].id == entries[i].id;
        return false, map[];
      }
      assert entries[..i + 1][..i] == entries[..i] && entries[..i + 1][i] == entry;
      attempts := attempts[entry.id := entry.record];
    }
    assert entries[..|entries|] == entries;
    ok := true;
  }

  method CheckCurrents(nodes: map<Id, NodeRun>, attempts: map<Id, Attempt>) returns (ok: bool)
    ensures ok <==> R.UsableCurrents(nodes, attempts)
  {
    var rest := nodes.Keys;
    while rest != {}
      invariant rest <= nodes.Keys
      invariant forall n :: n in nodes && n !in rest && nodes[n].current != "" ==>
                  nodes[n].current in attempts && attempts[nodes[n].current].node == n
      decreases |rest|
    {
      var n :| n in rest;
      if nodes[n].current != "" && (nodes[n].current !in attempts || attempts[nodes[n].current].node != n) { return false; }
      rest := rest - {n};
    }
    return true;
  }

  // Builds the engine of a persisted run.
  method Restore(d: Doc, accepted: bool, saved: R.Saved) returns (e: Engine?)
    requires accepted <==> ValidDoc(d)
    ensures e == null <==> R.RestoreState(d, saved).Err?
    ensures e != null ==> fresh(e) && e.doc == d && R.RestoreState(d, saved) == Ok(e.State())
  {
    hide ValidDoc, Inv, Spec.New, R.UsableNodes, R.UsableAttempts, R.UsableCurrents, R.NodesOf, R.AttemptsFrom, RestoreRun;
    NewKeeps(d, saved.run.command);
    RestoredCommand(saved.run);
    e := New(d, accepted, saved.run.command);
    if e == null { return null; }
    var run := RestoreRun(saved.run);
    if run.Err? || |saved.nodes| != |d.nodes| { return null; }
    var ok, nodes := RestoreNodes(d, saved.run, saved.nodes);
    if !ok { return null; }
    var attempts;
    ok, attempts := RestoreAttempts(nodes, saved.attempts);
    if !ok { return null; }
    ok := CheckCurrents(nodes, attempts);
    if !ok { return null; }
    AllNodesRestored(d, saved.run, saved.nodes);
    e.run, e.nodes, e.attempts := run.value, nodes, attempts;
    e.RebuildEdges();
  }

  lemma RestoredCommand(run: Run)
    ensures RestoreRun(run).Ok? ==> RestoreRun(run).value == run && ValidCommand(run.command)
  {
  }

  lemma {:induction false} NodesOfKeys(d: Doc, run: Run, entries: seq<R.NodeEntry>)
    requires R.UsableNodes(d, run, entries)
    ensures var keys := R.NodesOf(d, run, entries).Keys;
            keys <= d.nodes.Keys && |keys| == |entries| && forall k :: k in keys ==> exists i :: 0 <= i < |entries| && entries[i].id == k
  {
    if entries != [] {
      var last := |entries| - 1;
      assert R.UsableNode(d, run, entries[last]);
      NodesOfKeys(d, run, entries[..last]);
      assert entries[last].id !in R.NodesOf(d, run, entries[..last]).Keys;
      assert R.NodesOf(d, run, entries).Keys == R.NodesOf(d, run, entries[..last]).Keys + {entries[last].id};
    }
  }

  // As many usable records as the definition has nodes are one for each node.
  lemma AllNodesRestored(d: Doc, run: Run, entries: seq<R.NodeEntry>)
    requires R.UsableNodes(d, run, entries) && |entries| == |d.nodes|
    ensures R.NodesOf(d, run, entries).Keys == d.nodes.Keys
  {
    NodesOfKeys(d, run, entries);
    SubsetOfSameSize(R.NodesOf(d, run, entries).Keys, d.nodes.Keys);
  }
}
