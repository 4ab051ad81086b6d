/**
 The driving loop keeps the invariants and never meets a refused operation.
 */
module EngineDrive {
  import opened Ids
  import opened Json
  import opened Runtime
  import opened Workflow
  import opened EngineSpec
  import opened EngineInvariants
  import B = Branch

  ghost predicate ExitIsLast(d: Doc) {
    forall i :: 0 <= i < |d.edges| ==> d.edges[i].source != d.exit
  }

  // The states between two visits of a run that is not terminating.
  ghost predicate Driving(d: Doc, s: State) {
    && d.entry in d.nodes && d.exit in d.nodes && ExitIsLast(d)
    && Core(d, s) && s.run.termination.None? && Flow(d, s)
    && (s.run.state.RunRunning? || AllTerminal(s))
  }

  // A node about to be visited: pending, with all incoming edges settled.
  ghost predicate Visitable(d: Doc, s: State, n: Id) {
    && Driving(d, s) && s.run.state.RunRunning? && n in s.nodes && ValidNode(d, n)
    && n != d.entry && s.nodes[n].state.Pending? && AllIncomingSettled(d, s, n)
  }

  ghost predicate Firing(d: Doc, s: State, n: Id) {
    Visitable(d, s, n) && AnyIncomingActive(d, s, n) && s.nodes[n].activated
  }

  // The state right after a node failed: it only remains to wind the run up.
  ghost predicate Falling(d: Doc, s: State) {
    Core(d, s) && s.run.termination.Some? && s.run.state.RunRunning?
  }

  ghost predicate GoodTime(s: State, at: Time) {
    at == 0 || at >= s.run.command.createdAt
  }

  // ---------------------------------------------------------------- facts and updates

  lemma DrivingFacts(d: Doc, s: State, n: Id)
    requires Driving(d, s) && n in s.nodes
    ensures Fits(d, s) && n in d.nodes && NodeOk(d.nodes[n], n, s.nodes[n], s.attempts)
    ensures Placed(d, s, n) && NodeFlow(d.nodes[n], s.nodes[n]) && RunOk(d, s.run)
    ensures s.run.termination.None? && s.nodes[d.entry].state.Succeeded?
    ensures s.nodes[n].state.Pending? ==> s.run.state.RunRunning?
    ensures forall m :: m in s.nodes ==> !EndedBadly(s.nodes[m]) && NodeFlow(d.nodes[m], s.nodes[m])
  {
  }

  lemma DrivingFits(d: Doc, s: State)
    requires Driving(d, s)
    ensures Fits(d, s) && d.entry in s.nodes && d.exit in s.nodes && s.run.termination.None?
  {
  }

  // Changing the record of one open node, and settling its edges if it is over, keeps a run driving.
  lemma DrivingUpdate(d: Doc, s: State, t: State, n: Id)
    requires Driving(d, s) && OnlyNode(s, t, n) && Fits(d, t) && n != d.entry && !s.nodes[n].state.Terminal()
    requires NodeOk(d.nodes[n], n, t.nodes[n], t.attempts) && t.nodes[n].current == s.nodes[n].current
    requires NodeFlow(d.nodes[n], t.nodes[n]) && !EndedBadly(t.nodes[n])
    requires EdgesFollow(d, s, t, n)
    requires t.nodes[n].activated || !t.nodes[n].state.Pending? ==>
               AllIncomingSettled(d, s, n) && (AnyIncomingActive(d, s, n) <==> !t.nodes[n].state.Skipped?)
    requires t.run == s.run || (n == d.exit && AllTerminal(t) && RunOk(d, t.run) && t.run.state.RunSucceeded?)
    requires n == d.exit ==> (t.nodes[n].state.Succeeded? <==> t.run.state.RunSucceeded?)
    ensures Driving(d, t)
  {
    hide NodeOk, NodeFlow, ExitIsLast, EdgesProject, EdgesFollow, Placed;
    CoreUpdate(d, s, t, n);
    FlowUpdate(d, s, t, n);
  }

  // ---------------------------------------------------------------- what the records keep

  lemma SkipRecord(def: NodeDef, n: Id, node: NodeRun, attempts: map<Id, Attempt>)
    requires NodeOk(def, n, node, attempts) && node.state.Pending? && !node.activated
    ensures node.Skip().Ok? && NodeOk(def, n, node.Skip().value, attempts)
  {
  }

  lemma ActivateRecord(def: NodeDef, n: Id, node: NodeRun, attempts: map<Id, Attempt>)
    requires NodeOk(def, n, node, attempts) && node.state.Pending?
    ensures node.Activate().Ok? && NodeOk(def, n, node.Activate().value, attempts)
  {
  }

  lemma ReadyRecord(def: NodeDef, n: Id, node: NodeRun, attempts: map<Id, Attempt>, values: map<string, Value>)
    requires NodeOk(def, n, node, attempts) && node.state.Pending? && node.activated && def.op.TaskOp?
    ensures node.BecomeReady(values).Ok? && NodeOk(def, n, node.BecomeReady(values).value, attempts)
  {
  }

  lemma BranchRecord(def: NodeDef, n: Id, node: NodeRun, attempts: map<Id, Attempt>, route: string)
    requires NodeOk(def, n, node, attempts) && node.state.Pending? && node.activated && def.op.BranchOp?
    ensures node.SucceedControl(route, map[]).Ok? && NodeOk(def, n, node.SucceedControl(route, map[]).value, attempts)
  {
  }

  lemma FailRecord(def: NodeDef, n: Id, node: NodeRun, attempts: map<Id, Attempt>, cause: Failure)
    requires NodeOk(def, n, node, attempts) && node.state.Pending? && node.activated && cause.code != ""
    ensures var failed := if node.kind.Control? then node.FailControl(cause) else node.FailBeforeAttempt(cause);
            failed.Ok? && NodeOk(def, n, failed.value, attempts)
  {
  }

  lemma EndRecord(def: NodeDef, n: Id, node: NodeRun, attempts: map<Id, Attempt>)
    requires NodeOk(def, n, node, attempts) && node.state.Pending? && node.activated && def.op.EndOp?
    requires NodeFlow(def, node) && def.outputs == map[]
    ensures NodeOk(def, n, node.(state := Succeeded, version := node.version + 1), attempts)
    ensures NodeFlow(def, node.(state := Succeeded, version := node.version + 1)) && node.route == ""
  {
  }

  // ---------------------------------------------------------------- visits

  lemma SkipKeeps(d: Doc, s: State, n: Id)
    requires Visitable(d, s, n) && !AnyIncomingActive(d, s, n)
    ensures s.nodes[n].Skip().Ok?
    ensures Driving(d, Settle(d, SetNode(s, n, s.nodes[n].Skip().value), n, ""))
  {
    hide Driving, NodeOk, ValidNode;
    DrivingFacts(d, s, n);
    SkipRecord(d.nodes[n], n, s.nodes[n], s.attempts);
    DrivingUpdate(d, s, Settle(d, SetNode(s, n, s.nodes[n].Skip().value), n, ""), n);
  }

  lemma ActivateKeeps(d: Doc, s: State, n: Id)
    requires Visitable(d, s, n) && AnyIncomingActive(d, s, n)
    ensures s.nodes[n].Activate().Ok?
    ensures Firing(d, SetNode(s, n, s.nodes[n].Activate().value), n)
  {
    hide Driving, NodeOk, ValidNode;
    DrivingFacts(d, s, n);
    ActivateRecord(d.nodes[n], n, s.nodes[n], s.attempts);
    DrivingUpdate(d, s, SetNode(s, n, s.nodes[n].Activate().value), n);
  }

  lemma TripKeeps(d: Doc, s: State, n: Id, cause: Failure, at: Time)
    requires Firing(d, s, n) && GoodTime(s, at) && cause.code != ""
    ensures var node := s.nodes[n];
            var r := Trip(s, n, if node.kind.Control? then node.FailControl(cause) else node.FailBeforeAttempt(cause), cause, at);
            r.Tripped? && Falling(d, r.s)
  {
    hide NodeOk, ValidNode, Flow, AttemptOk;
    DrivingFacts(d, s, n);
    FailRecord(d.nodes[n], n, s.nodes[n], s.attempts, cause);
    var node := s.nodes[n];
    var t := Trip(s, n, if node.kind.Control? then node.FailControl(cause) else node.FailBeforeAttempt(cause), cause, at).s;
    CoreUpdate(d, s, t, n);
  }

  lemma ReadyKeeps(d: Doc, s: State, n: Id, values: map<string, Value>)
    requires Firing(d, s, n) && d.nodes[n].op.TaskOp?
    ensures s.nodes[n].BecomeReady(values).Ok?
    ensures Driving(d, SetNode(s, n, s.nodes[n].BecomeReady(values).value))
  {
    hide Driving, NodeOk;
    DrivingFacts(d, s, n);
    ReadyRecord(d.nodes[n], n, s.nodes[n], s.attempts, values);
    DrivingUpdate(d, s, SetNode(s, n, s.nodes[n].BecomeReady(values).value), n);
  }

  lemma BranchKeeps(d: Doc, s: State, n: Id, route: string)
    requires Firing(d, s, n) && d.nodes[n].op.BranchOp? && route in RoutesOf(d.nodes[n].op)
    ensures s.nodes[n].SucceedControl(route, map[]).Ok?
    ensures Driving(d, Settle(d, SetNode(s, n, s.nodes[n].SucceedControl(route, map[]).value), n, route))
  {
    hide Driving, NodeOk;
    DrivingFacts(d, s, n);
    BranchRecord(d.nodes[n], n, s.nodes[n], s.attempts, route);
    DrivingUpdate(d, s, Settle(d, SetNode(s, n, s.nodes[n].SucceedControl(route, map[]).value), n, route), n);
  }

  lemma DeclaredInRoutes(op: Operation, route: string)
    requires op.BranchOp? && B.Declares(op.cases, op.fallback, route)
    ensures route in RoutesOf(op)
  {
    if route == op.fallback {
      assert RoutesOf(op)[0] == route;
    } else {
      var k :| 0 <= k < |op.cases| && op.cases[k].route == route;
      assert RoutesOf(op)[k + 1] == route;
    }
  }

  // What the branches of Fire need to know of the node.
  lemma FiringNode(d: Doc, s: State, n: Id)
    requires Firing(d, s, n)
    ensures Fits(d, s) && n in d.nodes && n in s.nodes && ValidNode(d, n) && n != d.entry
    ensures s.nodes[n].kind == d.nodes[n].Kind() && s.nodes[n].state.Pending? && s.nodes[n].activated
    ensures s.run.state.RunRunning?
    ensures forall m :: m in s.nodes ==> NodeFlow(d.nodes[m], s.nodes[m])
  {
    assert NodeOk(d.nodes[n], n, s.nodes[n], s.attempts);
  }

  lemma FireBranchKeeps(d: Doc, s: State, n: Id, value: Value, at: Time)
    requires Firing(d, s, n) && d.nodes[n].op.BranchOp? && GoodTime(s, at)
    ensures var r := FireBranch(d, s, n, value, at);
            (r.Moved? && Driving(d, r.s)) || (r.Tripped? && Falling(d, r.s))
  {
    hide Firing, Driving, Falling, GoodTime, ValidNode, Trip;
    FiringNode(d, s, n);
    var op := d.nodes[n].op;
    match B.Evaluate(op.cases, op.fallback, value)
    case Took(route) =>
      B.TakesDeclaredRoute(op.cases, op.fallback, value);
      DeclaredInRoutes(op, route);
      BranchKeeps(d, s, n, route);
    case PathNotFound =>
      TripKeeps(d, s, n, Failure(BRANCH_PATH, "control_evaluation", n, "", "operation.config"), at);
    case OperatorMismatch =>
      TripKeeps(d, s, n, Failure(BRANCH_OPERATOR, "control_evaluation", n, "", "operation.config"), at);
  }

  // The state in which the end node and the run have succeeded.
  function Finished(s: State, n: Id, output: Value): State
    requires n in s.nodes
  {
    SetNode(s, n, s.nodes[n].(state := Succeeded, version := s.nodes[n].version + 1))
      .(run := s.run.(output := Some(output), state := RunSucceeded, version := s.run.version + 1))
  }

  lemma EndFacts(d: Doc, s: State, n: Id)
    requires Firing(d, s, n) && d.nodes[n].op.EndOp?
    ensures n in s.nodes && s.nodes[n].kind.Control? && s.nodes[n].activated && s.nodes[n].state.Pending?
    ensures s.run.state.RunRunning? && s.run.termination.None? && s.nodes.Keys == s.run.nodeIds
    ensures forall m :: m in s.nodes ==> !EndedBadly(s.nodes[m])
    ensures d.nodes[n].outputs == map[] && n != d.entry
  {
    hide NodeFlow;
    FiringNode(d, s, n);
  }

  lemma FireEndFinishes(d: Doc, s: State, n: Id, output: Value)
    requires Firing(d, s, n) && d.nodes[n].op.EndOp? && output.Obj? && OthersTerminal(s, n)
    ensures FireEnd(s, n, output) == Moved(Finished(s, n, output)) && AllTerminal(Finished(s, n, output))
  {
    hide Firing;
    EndFacts(d, s, n);
  }

  lemma FinishedKeeps(d: Doc, s: State, n: Id, output: Value)
    requires Firing(d, s, n) && n == d.exit && d.nodes[n].op.EndOp? && output.Obj?
    requires AllTerminal(Finished(s, n, output))
    ensures Driving(d, Finished(s, n, output))
  {
    hide Driving, NodeOk, NodeFlow, ValidNode;
    EndFacts(d, s, n);
    DrivingFacts(d, s, n);
    EndRecord(d.nodes[n], n, s.nodes[n], s.attempts);
    ExitSettlesNothing(d, s);
    DrivingUpdate(d, s, Finished(s, n, output), n);
  }

  lemma FireEndKeeps(d: Doc, s: State, n: Id, output: Value)
    requires Firing(d, s, n) && n == d.exit && d.nodes[n].op.EndOp? && output.Obj?
    ensures var r := FireEnd(s, n, output); (r.Idle? && r.s == s) || (r.Moved? && Driving(d, r.s))
  {
    hide Firing, Driving;
    if OthersTerminal(s, n) {
      FireEndFinishes(d, s, n, output);
      FinishedKeeps(d, s, n, output);
    }
  }

  lemma ExitSettlesNothing(d: Doc, s: State)
    requires Driving(d, s)
    ensures Fits(d, s) && d.exit in s.nodes
    ensures forall t :: Fits(d, t) && t.edges == s.edges ==> SettledEdges(d, t, d.exit, "") == s.edges
  {
  }

  // The end node's input is an object, because the contract and the outputs agree on its type.
  lemma EndInputIsObject(d: Doc, s: State, b: Binding)
    requires Fits(d, s) && ValidBinding(d, b) && b.dataType.TObject? && Bind(s, b).Has?
    requires forall m :: m in s.nodes ==> NodeFlow(d.nodes[m], s.nodes[m])
    ensures Bind(s, b).value.Obj?
  {
    if b.FromOutput? {
      assert NodeFlow(d.nodes[b.node], s.nodes[b.node]);
    }
  }

  lemma FireKeeps(d: Doc, s: State, n: Id, at: Time)
    requires Firing(d, s, n) && GoodTime(s, at)
    ensures var r := Fire(d, s, n, at);
            (r.Idle? && r.s == s) || (r.Moved? && Driving(d, r.s)) || (r.Tripped? && Falling(d, r.s))
  {
    hide Firing, Driving, Falling, GoodTime, Trip, FireBranch, FireEnd, NodeFlow;
    FiringNode(d, s, n);
    var def := d.nodes[n];
    match ResolveInputs(s, def)
    case Refused => TripKeeps(d, s, n, Failure(INPUT_CONTRACT, "input_binding", n, "", "inputs"), at);
    case NotReady =>
    case Resolved(values) =>
      if def.op.TaskOp? {
        ReadyKeeps(d, s, n, values);
      } else if def.op.BranchOp? {
        FireBranchKeeps(d, s, n, if "value" in values then values["value"] else Null, at);
      } else {
        EndInputIsObject(d, s, def.inputs["workflow_output"]);
        FireEndKeeps(d, s, n, values["workflow_output"]);
      }
  }

  // One visit keeps the loop's invariant, or records the intent that ends the run.
  lemma VisitKeeps(d: Doc, s: State, n: Id, at: Time)
    requires Driving(d, s) && n in s.nodes && ValidNode(d, n) && GoodTime(s, at)
    ensures var r := Visit(d, s, n, at);
            ((r.Idle? || r.Moved?) && Driving(d, r.s)) || (r.Tripped? && Falling(d, r.s))
  {
    hide Driving, Falling, Fire, ValidNode;
    DrivingFacts(d, s, n);
    if s.nodes[n].state.Pending? && n != d.entry && AllIncomingSettled(d, s, n) {
      if !AnyIncomingActive(d, s, n) {
        SkipKeeps(d, s, n);
      } else {
        ActivateKeeps(d, s, n);
        var t := SetNode(s, n, s.nodes[n].Activate().value);
        FireKeeps(d, t, n, at);
        assert Firing(d, t, n) ==> Driving(d, t);
      }
    }
  }

  // ---------------------------------------------------------------- passes

  // A visit never touches the immutable part of the run, nor an intent already recorded.
  lemma VisitCommand(d: Doc, s: State, n: Id, at: Time)
    requires Fits(d, s) && n in s.nodes
    ensures var r := Visit(d, s, n, at);
            !r.Broken? ==>
              && r.s.run.command == s.run.command && r.s.attempts == s.attempts
              && (s.run.termination.Some? ==> r.s.run.termination == s.run.termination)
  {
    hide ResolveInputs, B.Evaluate, AllIncomingSettled, AnyIncomingActive, OthersTerminal, SettledEdges;
  }

  ghost predicate ValidIds(d: Doc, ids: seq<Id>) {
    forall k :: 0 <= k < |ids| ==> ids[k] in d.nodes && ValidNode(d, ids[k])
  }

  lemma {:induction false} PassKeeps(d: Doc, s: State, ids: seq<Id>, i: nat, at: Time)
    requires Driving(d, s) && ValidIds(d, ids) && i <= |ids| && GoodTime(s, at)
    ensures Fits(d, s)
    ensures var r := Pass(d, s, ids, i, at);
            && (((r.Idle? || r.Moved?) && Driving(d, r.s)) || (r.Tripped? && Falling(d, r.s)))
            && r.s.run.command == s.run.command && r.s.attempts == s.attempts
    decreases |ids| - i
  {
    hide Driving, Falling, Visit, ValidNode;
    DrivingFits(d, s);
    if i < |ids| {
      VisitKeeps(d, s, ids[i], at);
      VisitFits(d, s, ids[i], at);
      VisitCommand(d, s, ids[i], at);
      var v := Visit(d, s, ids[i], at);
      if v.Idle? || v.Moved? {
        PassKeeps(d, v.s, ids, i + 1, at);
      }
    }
  }

  // ---------------------------------------------------------------- winding up

  lemma CancelRecord(def: NodeDef, n: Id, node: NodeRun, attempts: map<Id, Attempt>, reason: string)
    requires NodeOk(def, n, node, attempts) && !node.state.Terminal() && reason != ""
    requires (node.state.Queued? || node.state.Running?) && node.current in attempts ==> attempts[node.current].state.Terminal()
    ensures node.Cancel(reason).Ok? && NodeOk(def, n, node.Cancel(reason).value, attempts)
  {
  }

  lemma CancelKeeps(d: Doc, s: State, n: Id, reason: string)
    requires Core(d, s) && s.run.termination.Some? && n in s.nodes && reason != ""
    requires !s.nodes[n].state.Terminal() && !Outstanding(s, n)
    ensures s.nodes[n].Cancel(reason).Ok?
    ensures var t := Settle(d, SetNode(s, n, s.nodes[n].Cancel(reason).value), n, "");
            Core(d, t) && t.nodes[n].state.Terminal()
    ensures Core(d, SetNode(s, n, s.nodes[n].Cancel(reason).value))
  {
    CoreFacts(d, s, n);
    hide Core, NodeOk;
    CancelRecord(d.nodes[n], n, s.nodes[n], s.attempts, reason);
    CoreUpdate(d, s, Settle(d, SetNode(s, n, s.nodes[n].Cancel(reason).value), n, ""), n);
    CoreUpdate(d, s, SetNode(s, n, s.nodes[n].Cancel(reason).value), n);
  }

  lemma CoreFacts(d: Doc, s: State, n: Id)
    requires Core(d, s) && n in s.nodes
    ensures Fits(d, s) && n in d.nodes && NodeOk(d.nodes[n], n, s.nodes[n], s.attempts) && RunOk(d, s.run)
    ensures s.nodes.Keys == s.run.nodeIds
  {
  }

  // A node the sweep is done with.
  ghost predicate Swept(s: State, n: Id) {
    n in s.nodes && (s.nodes[n].state.Terminal() || Outstanding(s, n))
  }

  lemma {:induction false} SweepKeeps(d: Doc, s: State, ids: seq<Id>, i: nat, reason: string)
    requires Core(d, s) && s.run.termination.Some? && reason != "" && i <= |ids|
    requires forall k :: 0 <= k < |ids| ==> ids[k] in d.nodes
    ensures Fits(d, s)
    ensures var r := Sweep(d, s, ids, i, reason);
            && r.Ok? && Core(d, r.value) && r.value.run == s.run && r.value.attempts == s.attempts
            && (forall m :: Swept(s, m) ==> Swept(r.value, m) && r.value.nodes[m] == s.nodes[m])
            && (forall k :: i <= k < |ids| ==> Swept(r.value, ids[k]))
    decreases |ids| - i
  {
    hide Core;
    assert Fits(d, s) by { CoreFits(d, s); }
    if i < |ids| {
      if Swept(s, ids[i]) {
        SweepKeeps(d, s, ids, i + 1, reason);
      } else {
        CancelKeeps(d, s, ids[i], reason);
        var t := Settle(d, SetNode(s, ids[i], s.nodes[ids[i]].Cancel(reason).value), ids[i], "");
        assert forall m :: Swept(s, m) ==> Swept(t, m) && t.nodes[m] == s.nodes[m];
        SweepKeeps(d, t, ids, i + 1, reason);
      }
    }
  }

  lemma CoreFits(d: Doc, s: State)
    requires Core(d, s)
    ensures Fits(d, s) && RunOk(d, s.run) && s.nodes.Keys == s.run.nodeIds
  {
  }

  lemma RunFinishes(d: Doc, s: State)
    requires Core(d, s) && s.run.termination.Some? && AllTerminal(s) && s.run.state.RunRunning?
    ensures var r := s.run.CompleteTermination(s.nodes);
            && r.Ok? && r.value.termination == s.run.termination && r.value.command == s.run.command
            && r.value.state == TerminalStateOf(s.run.termination.value.kind) && Core(d, s.(run := r.value))
  {
    hide NodeOk, AttemptOk;
    var t := s.(run := s.run.CompleteTermination(s.nodes).value);
    forall a | a in t.attempts ensures AttemptOk(t.nodes, a, t.attempts[a]) {
      assert AttemptOk(s.nodes, a, s.attempts[a]);
    }
  }

  // Winding up cancels every open node without an attempt out, and ends the run when none is left:
  // it takes exactly the state that the recorded intent names.
  lemma WindKeeps(d: Doc, s: State)
    requires Falling(d, s)
    ensures Fits(d, s)
    ensures var r := Wind(d, s);
            && r.Ok? && Core(d, r.value) && Wound(r.value) && r.value.attempts == s.attempts
            && r.value.run.termination == s.run.termination && r.value.run.command == s.run.command
  {
    CoreFits(d, s);
    ListingInside(d);
    var ids := Listing(d.nodes.Keys);
    SweepKeeps(d, s, ids, 0, CancelReason(s.run.termination.value.kind));
    var t := Sweep(d, s, ids, 0, CancelReason(s.run.termination.value.kind)).value;
    AllSwept(d, t, ids);
    hide Core, Outstanding;
    if AllTerminal(t) {
      RunFinishes(d, t);
    }
  }

  lemma AllSwept(d: Doc, t: State, ids: seq<Id>)
    requires Fits(d, t) && Elements(ids) == d.nodes.Keys && forall k :: 0 <= k < |ids| ==> Swept(t, ids[k])
    ensures forall n :: n in t.nodes && !t.nodes[n].state.Terminal() ==> t.nodes[n].state.Queued? || t.nodes[n].state.Running?
  {
    forall n | n in t.nodes ensures Swept(t, n) {
      assert n in Elements(ids);
      var k :| 0 <= k < |ids| && ids[k] == n;
    }
  }

  // A run that is already over cannot be wound up again.
  lemma WindRefuses(d: Doc, s: State)
    requires Core(d, s) && s.run.termination.Some? && s.run.state.Terminal() && AllTerminal(s)
    ensures Fits(d, s) && Wind(d, s).Err?
  {
    CoreFits(d, s);
    ListingInside(d);
    var ids := Listing(d.nodes.Keys);
    SweepKeeps(d, s, ids, 0, CancelReason(s.run.termination.value.kind));
    var t := Sweep(d, s, ids, 0, CancelReason(s.run.termination.value.kind)).value;
    hide Core, Outstanding;
    assert forall n :: n in s.nodes ==> Swept(s, n);
    assert AllTerminal(t);
  }

  // ---------------------------------------------------------------- the loop

  lemma DocFacts(d: Doc)
    requires ValidDoc(d)
    ensures d.entry in d.nodes && d.exit in d.nodes && d.entry != d.exit && ExitIsLast(d)
    ensures ValidIds(d, Listing(d.nodes.Keys))
  {
    ListingInside(d);
    forall i | 0 <= i < |d.edges| ensures d.edges[i].source != d.exit {
      assert ValidEdge(d, d.edges[i]);
    }
    assert ValidNode(d, d.entry) && ValidNode(d, d.exit);
  }

  lemma {:induction false} DriveKeeps(d: Doc, s: State, at: Time)
    requires ValidDoc(d) && (Driving(d, s) || Falling(d, s)) && GoodTime(s, at)
    ensures Fits(d, s)
    ensures var r := Drive(d, s, at);
            && r.Ok? && Inv(d, r.value) && r.value.run.command == s.run.command && r.value.attempts == s.attempts
            && (s.run.termination.Some? ==> r.value.run.termination == s.run.termination)
    decreases Pendings(s)
  {
    DocFacts(d);
    hide Driving, Falling, ValidDoc, ValidIds, Pass, Wind;
    if Falling(d, s) {
      FallingFacts(d, s);
      WindKeeps(d, s);
      InvFromWound(d, Wind(d, s).value);
    } else {
      var ids := Listing(d.nodes.Keys);
      DrivingFits(d, s);
      PassKeeps(d, s, ids, 0, at);
      ListingInside(d);
      PassFits(d, s, ids, 0, at);
      var p := Pass(d, s, ids, 0, at);
      if p.Tripped? || (p.Moved? && !p.s.run.state.Terminal()) {
        DriveKeeps(d, p.s, at);
      } else {
        InvFromDriving(d, p.s);
      }
    }
  }

  lemma FallingFacts(d: Doc, s: State)
    requires Falling(d, s)
    ensures Fits(d, s) && s.run.termination.Some?
  {
  }

  lemma InvFromWound(d: Doc, s: State)
    requires ValidDoc(d) && Core(d, s) && Wound(s) && s.run.termination.Some?
    ensures Inv(d, s)
  {
    hide ValidDoc, Core, Wound;
  }

  lemma InvFromDriving(d: Doc, s: State)
    requires ValidDoc(d) && Driving(d, s)
    ensures Inv(d, s)
  {
    hide ValidDoc, Core, Flow;
  }
}
