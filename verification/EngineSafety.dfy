/**
 Every engine operation keeps the invariants, and fails exactly on conditions its caller can
 check; so the invariants hold in every state of every run.
 */
module EngineSafety {
  import opened Ids
  import opened Json
  import opened Runtime
  import opened Workflow
  import opened EngineSpec
  import opened EngineInvariants
  import opened EngineDrive

  // ---------------------------------------------------------------- facts

  lemma InvSplit(d: Doc, s: State)
    requires Inv(d, s)
    ensures ValidDoc(d) && Core(d, s) && Fits(d, s) && d.entry in d.nodes && d.exit in d.nodes
    ensures s.run.termination.None? ==> Flow(d, s)
    ensures s.run.termination.Some? ==> Wound(s)
  {
    hide Flow, Wound, ValidNode, ValidEdges, NodeOk, AttemptOk;
  }

  lemma DrivingFromFlow(d: Doc, s: State)
    requires d.entry in d.nodes && d.exit in d.nodes && ExitIsLast(d)
    requires Core(d, s) && s.run.termination.None? && Flow(d, s)
    ensures Driving(d, s)
  {
    hide NodeOk, AttemptOk, Placed, EdgesProject, NodeFlow, ExitIsLast;
  }

  lemma InvFacts(d: Doc, s: State)
    requires Inv(d, s)
    ensures ValidDoc(d) && Core(d, s) && Fits(d, s) && d.entry in s.nodes && d.exit in s.nodes
    ensures s.run.termination.None? ==> Driving(d, s)
    ensures s.run.termination.Some? && s.run.state.RunRunning? ==> Falling(d, s)
    ensures s.run.termination.Some? ==> Wound(s)
  {
    hide Inv, ValidDoc, Core, Flow, Wound, Driving, ExitIsLast, ValidIds;
    InvSplit(d, s);
    DocFacts(d);
    if s.run.termination.None? {
      DrivingFromFlow(d, s);
    }
  }

  lemma AttemptFacts(d: Doc, s: State, a: Id)
    requires Core(d, s) && a in s.attempts
    ensures AttemptOk(s.nodes, a, s.attempts[a]) && s.attempts[a].node in s.nodes && s.attempts[a].node in d.nodes
    ensures NodeOk(d.nodes[s.attempts[a].node], s.attempts[a].node, s.nodes[s.attempts[a].node], s.attempts)
  {
  }

  // ---------------------------------------------------------------- changing one attempt

  // Attempts of n other than a are over.
  ghost predicate OthersOver(s: State, n: Id, a: Id) {
    forall b :: b in s.attempts && b != a && s.attempts[b].node == n ==> s.attempts[b].state.Terminal()
  }

  // t differs from s in the record of n and of its attempt a.
  ghost predicate OnlyAttempt(s: State, t: State, n: Id, a: Id) {
    && n in s.nodes && n in t.nodes && a in t.attempts && t.attempts[a].node == n
    && t.nodes == s.nodes[n := t.nodes[n]] && t.attempts == s.attempts[a := t.attempts[a]]
    && t.edges == s.edges && t.run == s.run
    && (a in s.attempts ==> s.attempts[a].node == n)
  }

  lemma CoreAttempt(d: Doc, s: State, t: State, n: Id, a: Id)
    requires Core(d, s) && OnlyAttempt(s, t, n, a)
    requires NodeOk(d.nodes[n], n, t.nodes[n], t.attempts) && AttemptOk(t.nodes, a, t.attempts[a])
    requires OthersOver(s, n, a) && !EndedBadly(t.nodes[n])
    ensures Core(d, t)
  {
    hide NodeOk, AttemptOk;
    forall b | b in t.attempts ensures AttemptOk(t.nodes, b, t.attempts[b]) {
      if b != a { OtherAttemptOk(s, t, n, a, b); }
    }
    forall m | m in t.nodes ensures NodeOk(d.nodes[m], m, t.nodes[m], t.attempts) {
      if m != n { OtherNodeOk(d, s, t, n, a, m); }
    }
  }

  lemma OtherAttemptOk(s: State, t: State, n: Id, a: Id, b: Id)
    requires OnlyAttempt(s, t, n, a) && OthersOver(s, n, a) && b in s.attempts && b != a && AttemptOk(s.nodes, b, s.attempts[b])
    ensures b in t.attempts && AttemptOk(t.nodes, b, t.attempts[b])
  {
  }

  lemma OtherNodeOk(d: Doc, s: State, t: State, n: Id, a: Id, m: Id)
    requires OnlyAttempt(s, t, n, a) && m in s.nodes && m in d.nodes && m != n && NodeOk(d.nodes[m], m, s.nodes[m], s.attempts)
    ensures m in t.nodes && NodeOk(d.nodes[m], m, t.nodes[m], t.attempts)
  {
  }

  // Moving an open node to another open state keeps the flow of control.
  lemma FlowAttempt(d: Doc, s: State, t: State, n: Id, a: Id)
    requires d.entry in d.nodes && d.exit in d.nodes && Fits(d, s) && Flow(d, s) && OnlyAttempt(s, t, n, a)
    requires !s.nodes[n].state.Terminal() && !s.nodes[n].state.Pending?
    requires !t.nodes[n].state.Terminal() && !t.nodes[n].state.Pending?
    requires t.nodes[n].route == s.nodes[n].route && n != d.exit
    ensures Fits(d, t) && Flow(d, t)
  {
    var u := t.(attempts := s.attempts);
    hide Flow, Placed;
    FlowNode(d, s, n);
    FlowUpdate(d, s, u, n);
    FlowSame(d, u, t);
  }

  lemma FlowNode(d: Doc, s: State, n: Id)
    requires d.entry in d.nodes && d.exit in d.nodes && Fits(d, s) && Flow(d, s) && n in s.nodes
    ensures s.nodes[d.entry].state.Succeeded? && Placed(d, s, n) && NodeFlow(d.nodes[n], s.nodes[n])
    ensures n != d.entry && !s.nodes[n].state.Pending? && !s.nodes[n].state.Skipped? ==>
              AllIncomingSettled(d, s, n) && AnyIncomingActive(d, s, n)
    ensures !s.nodes[n].state.Terminal() ==> !s.run.state.RunSucceeded? && !s.nodes[d.exit].state.Succeeded?
    ensures n == d.exit ==> s.run.state.RunSucceeded? == s.nodes[n].state.Succeeded?
  {
  }

  // An operation on one attempt that moves its node between open states keeps the invariant.
  lemma InvAttempt(d: Doc, s: State, t: State, n: Id, a: Id)
    requires Inv(d, s) && OnlyAttempt(s, t, n, a)
    requires NodeOk(d.nodes[n], n, t.nodes[n], t.attempts) && AttemptOk(t.nodes, a, t.attempts[a])
    requires OthersOver(s, n, a)
    requires t.nodes[n] == s.nodes[n] ||
             (!s.nodes[n].state.Terminal() && !s.nodes[n].state.Pending? && !t.nodes[n].state.Terminal()
              && !t.nodes[n].state.Pending? && t.nodes[n].route == s.nodes[n].route)
    requires s.run.termination.Some? && t.nodes[n] != s.nodes[n] ==> t.nodes[n].state.Running?
    requires EndedBadly(t.nodes[n]) ==> t.nodes[n] == s.nodes[n]
    ensures Inv(d, t)
  {
    hide ValidDoc, NodeOk, AttemptOk, Core, Flow;
    InvSplit(d, s);
    if t.nodes[n] == s.nodes[n] {
      SameNodes(d, s, t, n, a);
    } else {
      CoreAttempt(d, s, t, n, a);
      if s.run.termination.None? {
        DocEnds(d);
        OpenIsTask(d, s, n);
        FlowAttempt(d, s, t, n, a);
      }
    }
  }

  // Only tasks are ever ready, queued, running or waiting.
  lemma OpenIsTask(d: Doc, s: State, n: Id)
    requires ValidDoc(d) && Core(d, s) && n in s.nodes && !s.nodes[n].state.Terminal() && !s.nodes[n].state.Pending?
    ensures d.nodes[n].op.TaskOp? && s.nodes[n].kind.Task? && n != d.exit && n != d.entry
  {
    hide ValidEdges, AttemptOk, Linked, Counted;
    assert ValidNode(d, n) && NodeOk(d.nodes[n], n, s.nodes[n], s.attempts);
  }

  lemma DocEnds(d: Doc)
    requires ValidDoc(d)
    ensures d.entry in d.nodes && d.exit in d.nodes && d.entry != d.exit
  {
    assert ValidNode(d, d.entry) && ValidNode(d, d.exit);
  }

  // The flow of control does not depend on the attempts.
  lemma FlowSame(d: Doc, s: State, t: State)
    requires d.entry in d.nodes && d.exit in d.nodes && Fits(d, s) && Flow(d, s)
    requires t == s.(attempts := t.attempts)
    ensures Fits(d, t) && Flow(d, t)
  {
    forall m | m in t.nodes ensures Placed(d, t, m) && NodeFlow(d.nodes[m], t.nodes[m]) {
      assert Placed(d, s, m) && NodeFlow(d.nodes[m], s.nodes[m]);
    }
  }

  lemma CoreSame(d: Doc, s: State, t: State, n: Id, a: Id)
    requires Core(d, s) && OnlyAttempt(s, t, n, a) && t.nodes == s.nodes
    requires NodeOk(d.nodes[n], n, t.nodes[n], t.attempts) && AttemptOk(t.nodes, a, t.attempts[a])
    ensures Core(d, t)
  {
    forall b | b in t.attempts ensures AttemptOk(t.nodes, b, t.attempts[b]) {
      if b != a { assert AttemptOk(s.nodes, b, s.attempts[b]); }
    }
    forall m | m in t.nodes ensures NodeOk(d.nodes[m], m, t.nodes[m], t.attempts) {
      if m != n { assert NodeOk(d.nodes[m], m, s.nodes[m], s.attempts); }
    }
  }

  lemma SameNodes(d: Doc, s: State, t: State, n: Id, a: Id)
    requires Inv(d, s) && OnlyAttempt(s, t, n, a) && t.nodes[n] == s.nodes[n]
    requires NodeOk(d.nodes[n], n, t.nodes[n], t.attempts) && AttemptOk(t.nodes, a, t.attempts[a])
    ensures Inv(d, t)
  {
    hide ValidDoc, Core, Flow;
    InvSplit(d, s);
    assert t.nodes == s.nodes;
    CoreSame(d, s, t, n, a);
    if s.run.termination.None? {
      FlowSame(d, s, t);
    }
  }

  // Apart from its current attempt, a node has no attempt out.
  lemma OthersAreOver(d: Doc, s: State, n: Id, a: Id)
    requires Core(d, s) && n in s.nodes
    requires s.nodes[n].current == a || (!s.nodes[n].state.Queued? && !s.nodes[n].state.Running?)
    ensures OthersOver(s, n, a)
  {
    forall b | b in s.attempts && b != a && s.attempts[b].node == n ensures s.attempts[b].state.Terminal() {
      assert AttemptOk(s.nodes, b, s.attempts[b]);
      assert NodeOk(d.nodes[n], n, s.nodes[n], s.attempts);
    }
  }

  // ---------------------------------------------------------------- dispatch, start, result

  lemma QueueRecord(def: NodeDef, n: Id, node: NodeRun, nodes: map<Id, NodeRun>, attempts: map<Id, Attempt>, a: Id)
    requires NodeOk(def, n, node, attempts) && a !in attempts && n != "" && n in nodes && nodes[n] == node
    requires node.state.Ready? && a != ""
    ensures node.QueueAttempt(a).Ok?
    ensures var q := node.QueueAttempt(a).value;
            var attempt := NewAttempt(n, q.nextSeq, node.nextKind);
            && attempt.Ok? && NodeOk(def, n, q, attempts[a := attempt.value]) && AttemptOk(nodes[n := q], a, attempt.value)
            && q.state.Queued? && q.route == node.route
  {
  }

  // QueueNode succeeds exactly for a ready task of a run that is not terminating, with a fresh attempt id.
  lemma QueueKeeps(d: Doc, s: State, n: Id, a: Id)
    requires Inv(d, s)
    ensures var r := QueueNode(s, n, a);
            && (r.Ok? <==> s.run.termination.None? && a !in s.attempts && a != "" && n in s.nodes && s.nodes[n].state.Ready?)
            && (r.Ok? ==> Inv(d, r.value))
  {
    hide Inv, ValidDoc, Driving, Falling, Wound, Core, NodeOk, AttemptOk;
    InvFacts(d, s);
    if s.run.termination.None? && a !in s.attempts && a != "" && n in s.nodes && s.nodes[n].state.Ready? {
      CoreFacts(d, s, n);
      NodeName(d, n);
      QueueRecord(d.nodes[n], n, s.nodes[n], s.nodes, s.attempts, a);
      OthersAreOver(d, s, n, a);
      InvAttempt(d, s, QueueNode(s, n, a).value, n, a);
    }
  }

  lemma NodeName(d: Doc, n: Id)
    requires ValidDoc(d) && n in d.nodes
    ensures n != ""
  {
    assert ValidNode(d, n);
  }

  lemma StartRecord(def: NodeDef, n: Id, node: NodeRun, nodes: map<Id, NodeRun>, attempts: map<Id, Attempt>, a: Id)
    requires a in attempts && attempts[a].node == n && n in nodes && nodes[n] == node
    requires NodeOk(def, n, node, attempts) && AttemptOk(nodes, a, attempts[a]) && attempts[a].state.AttemptQueued?
    ensures var started := attempts[a].Start();
            && started.Ok? && node.AttemptStarted(a).Ok? && node.state.Queued?
            && NodeOk(def, n, node.AttemptStarted(a).value, attempts[a := started.value])
            && AttemptOk(nodes[n := node.AttemptStarted(a).value], a, started.value)
            && node.current == a
  {
  }

  // StartAttempt succeeds exactly for an attempt that is queued or already running.
  lemma StartKeeps(d: Doc, s: State, a: Id)
    requires Inv(d, s)
    ensures var r := StartAttempt(s, a);
            && (r.Ok? <==> a in s.attempts && !s.attempts[a].state.Terminal())
            && (r.Ok? ==> Inv(d, r.value))
  {
    hide Inv, ValidDoc, Driving, Falling, Wound, Core, NodeOk, AttemptOk;
    InvFacts(d, s);
    if a in s.attempts && s.attempts[a].state.AttemptQueued? {
      AttemptFacts(d, s, a);
      var n := s.attempts[a].node;
      StartRecord(d.nodes[n], n, s.nodes[n], s.nodes, s.attempts, a);
      OthersAreOver(d, s, n, a);
      InvAttempt(d, s, StartAttempt(s, a).value, n, a);
    }
  }

  lemma CompleteRecord(def: NodeDef, n: Id, node: NodeRun, nodes: map<Id, NodeRun>, attempts: map<Id, Attempt>, a: Id, r: AttemptResult)
    requires a in attempts && attempts[a].node == n && n in nodes && nodes[n] == node && node.current == a
    requires NodeOk(def, n, node, attempts) && AttemptOk(nodes, a, attempts[a]) && attempts[a].result.None?
    requires attempts[a].Complete(r).Ok?
    ensures var over := attempts[a].Complete(r).value;
            NodeOk(def, n, node, attempts[a := over]) && AttemptOk(nodes, a, over) && over.state.Terminal()
  {
  }

  // The results an open attempt accepts.
  ghost predicate Acceptable(attempt: Attempt, r: AttemptResult) {
    && ValidAttemptTransition(attempt.state, r.state) && r.state.Terminal()
    && (r.code == "" <==> r.state.AttemptSucceeded?)
  }

  // A result is recorded exactly once: the current attempt takes it if it is open and the result is
  // well formed; a repetition changes nothing; a contradiction is refused.
  lemma RecordKeeps(d: Doc, s: State, a: Id, r: AttemptResult)
    requires Inv(d, s)
    ensures var x := RecordResult(s, a, r);
            && (x.Ok? ==> Inv(d, x.value.0))
            && (x.Ok? && x.value.1 <==> a in s.attempts && s.attempts[a].result.None? && Acceptable(s.attempts[a], r))
            && (x.Ok? && !x.value.1 ==> x.value.0 == s)
            && (x.Ok? && x.value.1 ==> x.value.0 == s.(attempts := x.value.0.attempts) && x.value.0.attempts[a].result == Some(r))
  {
    hide Inv, ValidDoc, Driving, Falling, Wound, Core;
    InvFacts(d, s);
    if a in s.attempts {
      AttemptFacts(d, s, a);
      var n := s.attempts[a].node;
      if s.nodes[n].current == a && s.attempts[a].result.None? && s.attempts[a].Complete(r).Ok? {
        CompleteRecord(d.nodes[n], n, s.nodes[n], s.nodes, s.attempts, a, r);
        OthersAreOver(d, s, n, a);
        var t := RecordResult(s, a, r).value.0;
        assert t.nodes == s.nodes[n := t.nodes[n]];
        InvAttempt(d, s, t, n, a);
      }
    }
  }

  // ---------------------------------------------------------------- completed attempts

  // The terminal fact of the current attempt fits the state of its open node.
  ghost predicate Concluding(def: NodeDef, n: Id, node: NodeRun, attempts: map<Id, Attempt>, a: Id) {
    && NodeOk(def, n, node, attempts) && a in attempts && node.current == a && a != ""
    && (node.state.Queued? || node.state.Running?)
    && attempts[a].result.Some? && attempts[a].state.Terminal() && attempts[a].result.value.state == attempts[a].state
    && (attempts[a].result.value.code == "" <==> attempts[a].state.AttemptSucceeded?)
  }

  lemma ConcludingFacts(d: Doc, s: State, a: Id)
    requires Core(d, s) && a in s.attempts && s.attempts[a].result.Some?
    ensures s.attempts[a].node in s.nodes && s.attempts[a].node in d.nodes
    ensures var n := s.attempts[a].node;
            s.nodes[n].current == a && !s.nodes[n].state.Terminal() && !s.nodes[n].state.RetryWait? && !s.nodes[n].state.Ready?
            ==> Concluding(d.nodes[n], n, s.nodes[n], s.attempts, a)
  {
    AttemptFacts(d, s, a);
  }

  lemma RetryRecord(def: NodeDef, n: Id, node: NodeRun, attempts: map<Id, Attempt>, a: Id, due: Time)
    requires Concluding(def, n, node, attempts, a) && due > 0
    requires RetryAs(def, node, attempts[a].result.value).Some?
    ensures var r := node.WaitForRetry(a, RetryAs(def, node, attempts[a].result.value).value, due);
            && r.Ok? && NodeOk(def, n, r.value, attempts) && r.value.current == a && r.value.state.RetryWait?
            && r.value.route == node.route
  {
  }

  lemma SuccessRecord(def: NodeDef, n: Id, node: NodeRun, attempts: map<Id, Attempt>, a: Id, values: map<string, Value>)
    requires Concluding(def, n, node, attempts, a) && attempts[a].state.AttemptSucceeded?
    ensures var r := node.SucceedAttempt(a, values);
            && r.Ok? && NodeOk(def, n, r.value, attempts) && r.value.current == a && r.value.state.Succeeded?
            && r.value.route == node.route && r.value.outputs == values && def.op.TaskOp?
  {
  }

  lemma FailureRecord(def: NodeDef, n: Id, node: NodeRun, attempts: map<Id, Attempt>, a: Id, target: NodeState, cause: Failure)
    requires Concluding(def, n, node, attempts, a) && !attempts[a].state.AttemptCanceled?
    requires (target.Failed? || target.TimedOut?) && cause.code != ""
    ensures var r := node.FailAttempt(a, target, cause); r.Ok? && NodeOk(def, n, r.value, attempts) && r.value.current == a
  {
  }

  lemma CanceledRecord(def: NodeDef, n: Id, node: NodeRun, attempts: map<Id, Attempt>, a: Id, reason: string)
    requires Concluding(def, n, node, attempts, a) && reason != ""
    ensures var r := node.Cancel(reason); r.Ok? && NodeOk(def, n, r.value, attempts) && r.value.current == a
  {
  }

  // A run of which some node is open, seen from that node.
  ghost predicate OpenIn(d: Doc, s: State, n: Id) {
    && ValidDoc(d) && Driving(d, s) && s.run.state.RunRunning? && n in s.nodes
    && !s.nodes[n].state.Terminal() && !s.nodes[n].state.Pending?
  }

  lemma OpenFacts(d: Doc, s: State, n: Id)
    requires OpenIn(d, s, n)
    ensures Fits(d, s) && n in d.nodes && n != d.entry && n != d.exit && d.nodes[n].op.TaskOp? && Core(d, s)
    ensures AllIncomingSettled(d, s, n) && AnyIncomingActive(d, s, n) && s.nodes[n].route == ""
    ensures s.run.termination.None?
  {
    hide ValidDoc, Core, Flow;
    DrivingSplit(d, s);
    OpenIsTask(d, s, n);
    FlowNode(d, s, n);
  }

  lemma DrivingSplit(d: Doc, s: State)
    requires Driving(d, s)
    ensures d.entry in d.nodes && d.exit in d.nodes && Core(d, s) && Fits(d, s) && Flow(d, s) && s.run.termination.None?
  {
    hide ExitIsLast, Flow;
  }

  // Moving an open node to another open state, with the same attempt, keeps the invariant.
  lemma OpenMoves(d: Doc, s: State, n: Id, node: NodeRun)
    requires OpenIn(d, s, n) && n in d.nodes && NodeOk(d.nodes[n], n, node, s.attempts)
    requires node.current == s.nodes[n].current && node.route == s.nodes[n].route
    requires !node.state.Terminal() && !node.state.Pending?
    ensures Inv(d, SetNode(s, n, node))
  {
    hide ValidDoc, Driving, NodeOk, Core, Inv;
    OpenFacts(d, s, n);
    DrivingUpdate(d, s, SetNode(s, n, node), n);
    InvFromDriving(d, SetNode(s, n, node));
  }

  lemma ConcludingIsCurrent(def: NodeDef, n: Id, node: NodeRun, attempts: map<Id, Attempt>, a: Id)
    requires Concluding(def, n, node, attempts, a)
    ensures node.current == a && (node.state.Queued? || node.state.Running?) && NodeOk(def, n, node, attempts)
    ensures a in attempts && attempts[a].result.Some? && attempts[a].result.value.state == attempts[a].state
    ensures attempts[a].result.value.code == "" <==> attempts[a].state.AttemptSucceeded?
    ensures attempts[a].state.Terminal()
  {
  }

  lemma SuccessKeeps(d: Doc, s: State, a: Id, values: map<string, Value>)
    requires a in s.attempts && OpenIn(d, s, s.attempts[a].node) && s.attempts[a].node in d.nodes
    requires Concluding(d.nodes[s.attempts[a].node], s.attempts[a].node, s.nodes[s.attempts[a].node], s.attempts, a)
    requires s.attempts[a].state.AttemptSucceeded?
    ensures Fits(d, s)
    ensures var r := AcceptSuccess(d, s, s.attempts[a].node, a, values);
            && (r.Ok? <==> ValidOutputs(d.nodes[s.attempts[a].node], values))
            && (r.Ok? ==> Driving(d, r.value) && r.value.run == s.run && r.value.attempts == s.attempts)
  {
    hide ValidDoc, Driving, Concluding, NodeOk, Core, Inv;
    var n := s.attempts[a].node;
    OpenFacts(d, s, n);
    SuccessRecord(d.nodes[n], n, s.nodes[n], s.attempts, a, values);
    ConcludingIsCurrent(d.nodes[n], n, s.nodes[n], s.attempts, a);
    if ValidOutputs(d.nodes[n], values) {
      DrivingUpdate(d, s, AcceptSuccess(d, s, n, a, values).value, n);
    }
  }

  // Recording the failure of an open node ends the run: the intent is accepted, whatever is done with its error.
  lemma FailKeeps(d: Doc, s: State, n: Id, failed: NodeRun, cause: Failure, at: Time)
    requires OpenIn(d, s, n) && n in d.nodes && at >= s.run.command.createdAt && cause.code != ""
    requires NodeOk(d.nodes[n], n, failed, s.attempts) && failed.current == s.nodes[n].current
    ensures var r := FailNode(s, n, Ok(failed), cause, at);
            && r.Ok? && Falling(d, r.value) && r.value.run.command == s.run.command && r.value.attempts == s.attempts
            && r.value.run.termination == Some(Intent(FailedKind, at, cause))
  {
    hide ValidDoc, NodeOk, Core, Flow, ExitIsLast;
    OpenFacts(d, s, n);
    RunFacts(d, s);
    CoreUpdate(d, s, FailNode(s, n, Ok(failed), cause, at).value, n);
  }

  lemma RunFacts(d: Doc, s: State)
    requires Core(d, s)
    ensures RunOk(d, s.run) && ValidCommand(s.run.command)
  {
  }

  lemma ConcludeKeeps(d: Doc, s: State, a: Id, at: Time)
    requires a in s.attempts && OpenIn(d, s, s.attempts[a].node) && at >= s.run.command.createdAt && s.attempts[a].node in d.nodes
    requires Concluding(d.nodes[s.attempts[a].node], s.attempts[a].node, s.nodes[s.attempts[a].node], s.attempts, a)
    ensures Fits(d, s)
    ensures var r := Conclude(d, s, s.attempts[a].node, a, s.attempts[a].result.value, at);
            && r.Ok? && (Driving(d, r.value) || Falling(d, r.value))
            && r.value.run.command == s.run.command && r.value.attempts == s.attempts
  {
    hide ValidDoc, Driving, Falling, Concluding, NodeOk, Core, OpenIn, FailNode, ValidOutputs;
    var n := s.attempts[a].node;
    OpenFacts(d, s, n);
    ConcludingIsCurrent(d.nodes[n], n, s.nodes[n], s.attempts, a);
    var r := s.attempts[a].result.value;
    var cause := Failure(if r.state.AttemptTimedOut? && r.code == "" then NODE_TIMEOUT else r.code, "node_execution", n, a, r.field);
    if r.state.AttemptSucceeded? {
      SuccessKeeps(d, s, a, r.outputs);
      var broken := Failure(OUTPUT_CONTRACT, "output_binding", n, a, "outputs");
      FailureRecord(d.nodes[n], n, s.nodes[n], s.attempts, a, Failed, broken);
      FailKeeps(d, s, n, s.nodes[n].FailAttempt(a, Failed, broken).value, broken, at);
    } else if r.state.AttemptCanceled? {
      CanceledRecord(d.nodes[n], n, s.nodes[n], s.attempts, a, NODE_FAILED);
      FailKeeps(d, s, n, s.nodes[n].Cancel(NODE_FAILED).value, cause, at);
    } else {
      var target := if r.state.AttemptTimedOut? then TimedOut else Failed;
      FailureRecord(d.nodes[n], n, s.nodes[n], s.attempts, a, target, cause);
      FailKeeps(d, s, n, s.nodes[n].FailAttempt(a, target, cause).value, cause, at);
    }
  }

  lemma ConcludeWindingKeeps(d: Doc, s: State, a: Id)
    requires a in s.attempts && Falling(d, s) && s.attempts[a].node in d.nodes && s.attempts[a].node in s.nodes
    requires Concluding(d.nodes[s.attempts[a].node], s.attempts[a].node, s.nodes[s.attempts[a].node], s.attempts, a)
    ensures Fits(d, s)
    ensures var r := ConcludeWinding(d, s, s.attempts[a].node, a, s.attempts[a].result.value);
            r.Ok? && Falling(d, r.value) && r.value.run == s.run && r.value.attempts == s.attempts
  {
    hide Concluding, NodeOk, Core, ValidOutputs;
    CoreFits(d, s);
    var n := s.attempts[a].node;
    ConcludingIsCurrent(d.nodes[n], n, s.nodes[n], s.attempts, a);
    var r := s.attempts[a].result.value;
    if r.state.AttemptSucceeded? {
      SuccessRecord(d.nodes[n], n, s.nodes[n], s.attempts, a, r.outputs);
    }
    CanceledRecord(d.nodes[n], n, s.nodes[n], s.attempts, a, CancelReason(s.run.termination.value.kind));
    var t := ConcludeWinding(d, s, n, a, r).value;
    CoreUpdate(d, s, t, n);
  }

  // HandleAttemptCompleted fails exactly when the attempt or its result is missing, or the time is unusable.
  lemma HandleKeeps(d: Doc, s: State, a: Id, at: Time)
    requires Inv(d, s)
    ensures Fits(d, s)
    ensures var r := HandleCompleted(d, s, a, at);
            && (r.Err? <==> a !in s.attempts || s.attempts[a].result.None? || at == 0 || at < s.run.command.createdAt)
            && (r.Ok? ==> Inv(d, r.value) && r.value.run.command == s.run.command && r.value.attempts == s.attempts)
            && (r.Ok? && s.run.termination.Some? ==> r.value.run.termination == s.run.termination)
  {
    hide Inv, ValidDoc, Driving, Falling, Wound, Core, NodeOk, Concluding, Conclude, ConcludeWinding, Drive, OpenIn, RetryAs;
    InvFacts(d, s);
    if a in s.attempts && s.attempts[a].result.Some? && at != 0 && at >= s.run.command.createdAt {
      ConcludingFacts(d, s, a);
      var n, r := s.attempts[a].node, s.attempts[a].result.value;
      var node := s.nodes[n];
      if node.current != a || node.state.Terminal() || node.state.RetryWait? || node.state.Ready? {
      } else if s.run.termination.Some? {
        StillRunning(d, s, n);
        ConcludeWindingKeeps(d, s, a);
        DriveKeeps(d, ConcludeWinding(d, s, n, a, r).value, at);
      } else {
        OpenFromInv(d, s, a);
        if RetryAs(d.nodes[n], node, r).Some? {
          RetryRecord(d.nodes[n], n, node, s.attempts, a, at + d.nodes[n].policy.delay);
          OpenMoves(d, s, n, node.WaitForRetry(a, RetryAs(d.nodes[n], node, r).value, at + d.nodes[n].policy.delay).value);
        } else {
          ConcludeKeeps(d, s, a, at);
          DriveKeeps(d, Conclude(d, s, n, a, r, at).value, at);
        }
      }
    }
  }

  lemma StillRunning(d: Doc, s: State, n: Id)
    requires Inv(d, s) && s.run.termination.Some? && n in s.nodes && !s.nodes[n].state.Terminal()
    ensures s.run.state.RunRunning?
  {
    hide ValidDoc, Flow, NodeOk, AttemptOk;
    InvSplit(d, s);
  }

  lemma OpenFromInv(d: Doc, s: State, a: Id)
    requires Inv(d, s) && s.run.termination.None? && a in s.attempts && s.attempts[a].node in s.nodes && s.attempts[a].node in d.nodes
    requires Concluding(d.nodes[s.attempts[a].node], s.attempts[a].node, s.nodes[s.attempts[a].node], s.attempts, a)
    ensures OpenIn(d, s, s.attempts[a].node)
  {
    hide Inv, ValidDoc, Core, Flow, Wound, ExitIsLast, NodeOk, Concluding;
    InvFacts(d, s);
    var n := s.attempts[a].node;
    ConcludingIsCurrent(d.nodes[n], n, s.nodes[n], s.attempts, a);
  }

  // ---------------------------------------------------------------- timers and requests

  lemma DueRecord(def: NodeDef, n: Id, node: NodeRun, attempts: map<Id, Attempt>, at: Time)
    requires NodeOk(def, n, node, attempts) && node.state.RetryWait?
    ensures var r := node.RetryDue(at);
            && r.Ok? && NodeOk(def, n, r.value, attempts) && r.value.current == node.current && r.value.route == node.route
            && (r.value.state.Ready? || r.value == node)
            && (r.value.state.Ready? <==> at != 0 && at >= node.nextRetryAt)
  {
  }

  // RetryDue fails exactly for an unknown node, or when the run is already over; a node becomes ready
  // through it only when its current due time has come.
  lemma RetryDueKeeps(d: Doc, s: State, n: Id, at: Time)
    requires Inv(d, s)
    ensures Fits(d, s)
    ensures var r := RetryDue(d, s, n, at);
            && (r.Err? <==> if s.run.termination.Some? then s.run.state.Terminal() else n !in s.nodes)
            && (r.Ok? ==> Inv(d, r.value) && r.value.run.command == s.run.command && r.value.attempts == s.attempts)
            && (r.Ok? && s.run.termination.Some? ==> r.value.run.termination == s.run.termination)
            && (r.Ok? && s.run.termination.None? ==>
                  && r.value == s.(nodes := r.value.nodes)
                  && forall m :: m in s.nodes ==>
                       r.value.nodes[m] == s.nodes[m] || (m == n && s.nodes[m].state.RetryWait? && at >= s.nodes[m].nextRetryAt))
  {
    hide Inv, ValidDoc, Driving, Falling, Core, NodeOk, OpenIn;
    InvFacts(d, s);
    if s.run.termination.Some? {
      TerminatingRun(d, s);
      if s.run.state.Terminal() {
        WindRefuses(d, s);
      } else {
        WindKeeps(d, s);
        InvFromWound(d, Wind(d, s).value);
      }
    } else if n in s.nodes && s.nodes[n].state.RetryWait? {
      CoreFacts(d, s, n);
      OpenNode(d, s, n);
      DueRecord(d.nodes[n], n, s.nodes[n], s.attempts, at);
      OpenMoves(d, s, n, s.nodes[n].RetryDue(at).value);
    }
  }

  lemma TerminatingRun(d: Doc, s: State)
    requires Inv(d, s) && s.run.termination.Some?
    ensures s.run.state.RunRunning? || (s.run.state.Terminal() && AllTerminal(s))
  {
    hide ValidDoc, Flow, NodeOk, AttemptOk;
    InvSplit(d, s);
  }

  lemma OpenNode(d: Doc, s: State, n: Id)
    requires Inv(d, s) && s.run.termination.None? && n in s.nodes && !s.nodes[n].state.Terminal() && !s.nodes[n].state.Pending?
    ensures OpenIn(d, s, n) && n in d.nodes
  {
    hide Inv, ValidDoc, Core, Flow, Wound, ExitIsLast;
    InvFacts(d, s);
  }

  // A request to stop fails exactly when the run is still open and the time is unusable; it is
  // applied exactly when it is the first, and then it is the intent that names the outcome.
  lemma RequestStopKeeps(d: Doc, s: State, intent: Intent)
    requires Inv(d, s) && intent.cause.code != ""
    ensures Fits(d, s)
    ensures var r := RequestStop(d, s, intent);
            && (r.Err? <==> !s.run.state.Terminal() && (intent.requestedAt == 0 || intent.requestedAt < s.run.command.createdAt))
            && (r.Ok? ==> Inv(d, r.value.0) && r.value.0.run.command == s.run.command && r.value.0.attempts == s.attempts)
            && (r.Ok? ==> (r.value.1 <==> !s.run.state.Terminal() && s.run.termination.None?))
            && (r.Ok? && r.value.1 ==> r.value.0.run.termination == Some(intent))
            && (r.Ok? && !r.value.1 ==> r.value.0.run.termination == s.run.termination)
  {
    hide Inv, ValidDoc, Driving, Falling, Core, Wound, Drive, OpenIn;
    InvFacts(d, s);
    RunFacts(d, s);
    if !s.run.state.Terminal() && intent.requestedAt != 0 && intent.requestedAt >= s.run.command.createdAt {
      var run := s.run.RequestTermination(intent).value.0;
      RequestedIsFalling(d, s, intent);
      DriveKeeps(d, s.(run := run), intent.requestedAt);
    }
  }

  lemma RequestedIsFalling(d: Doc, s: State, intent: Intent)
    requires Inv(d, s) && !s.run.state.Terminal() && s.run.RequestTermination(intent).Ok?
    ensures Falling(d, s.(run := s.run.RequestTermination(intent).value.0))
  {
    hide ValidDoc, Flow, NodeOk, AttemptOk, Wound;
    InvSplit(d, s);
    var t := s.(run := s.run.RequestTermination(intent).value.0);
    forall a | a in t.attempts ensures AttemptOk(t.nodes, a, t.attempts[a]) {
      assert AttemptOk(s.nodes, a, s.attempts[a]);
    }
  }

  // ---------------------------------------------------------------- creation

  lemma BlankRecord(def: NodeDef, n: Id)
    requires def.op.TaskOp? ==> def.policy.maxAttempts >= 1
    ensures NodeOk(def, n, NewNodeRun(def.Kind()), map[]) && NodeFlow(def, NewNodeRun(def.Kind()))
  {
  }

  lemma BlankNodes(d: Doc, n: Id)
    requires ValidDoc(d) && n in d.nodes
    ensures NodeOk(d.nodes[n], n, NewNodeRun(d.nodes[n].Kind()), map[]) && NodeFlow(d.nodes[n], NewNodeRun(d.nodes[n].Kind()))
  {
    hide ValidEdges, NodeOk, NodeFlow, HasIncoming, HasOutgoing, HasRouteEdge, ValidBinding;
    assert ValidNode(d, n);
    BlankRecord(d.nodes[n], n);
  }

  lemma SeededKeeps(d: Doc, c: Command)
    requires ValidDoc(d)
    ensures d.entry in d.nodes && (Seeded(d, c).Ok? <==> ValidCommand(c))
    ensures Seeded(d, c).Ok? ==> Driving(d, Seeded(d, c).value) && Seeded(d, c).value.run.command == c
  {
    hide ValidDoc, ValidIds, Driving, Core, Flow, ExitIsLast;
    DocFacts(d);
    DocNames(d);
    if ValidCommand(c) {
      SeededCore(d, c);
      SeededFlow(d, c);
      DrivingFromFlow(d, Seeded(d, c).value);
    }
  }

  lemma DocNames(d: Doc)
    requires ValidDoc(d)
    ensures "" !in d.nodes && |d.nodes.Keys| >= 2 && d.entry in d.nodes && d.nodes[d.entry].op.StartOp?
    ensures d.nodes[d.entry].outputs == map["workflow_input" := TObject]
  {
    hide ValidEdges, HasIncoming, HasOutgoing, HasRouteEdge, ValidBinding;
    DocEnds(d);
    assert ValidNode(d, d.entry);
    forall n | n in d.nodes ensures n != "" {
      assert ValidNode(d, n);
    }
    TwoElements(d.nodes.Keys, d.entry, d.exit);
  }

  lemma TwoElements(s: set<Id>, x: Id, y: Id)
    requires x in s && y in s && x != y
    ensures |s| >= 2
  {
    SubsetIsSmaller({x, y}, s);
  }

  // The records of a freshly seeded run.
  lemma SeededShape(d: Doc, c: Command)
    requires ValidCommand(c) && "" !in d.nodes && |d.nodes.Keys| >= 2 && d.entry in d.nodes && d.nodes[d.entry].op.StartOp?
    ensures Seeded(d, c).Ok?
    ensures var s := Seeded(d, c).value;
            && Fits(d, s) && s.attempts == map[] && s.run == Run(c, RunRunning, 2, d.nodes.Keys, None, None)
            && (forall n :: n in s.nodes && n != d.entry ==> s.nodes[n] == NewNodeRun(d.nodes[n].Kind()))
            && s.nodes[d.entry] == NewNodeRun(Control).(state := Succeeded, activated := true, version := 3, outputs := map["workflow_input" := c.input])
            && (forall i :: 0 <= i < |d.edges| ==>
                  s.edges[i] == if d.edges[i].source == d.entry then SettledAs(d.edges[i], Succeeded, "") else EdgePending)
  {
  }

  lemma SeededCore(d: Doc, c: Command)
    requires ValidDoc(d) && ValidCommand(c)
    ensures d.entry in d.nodes && Seeded(d, c).Ok? && Core(d, Seeded(d, c).value) && Seeded(d, c).value.run.termination.None?
    ensures Seeded(d, c).value.run.command == c
  {
    hide ValidDoc, Seeded;
    DocNames(d);
    SeededShape(d, c);
    var s := Seeded(d, c).value;
    forall n | n in s.nodes ensures NodeOk(d.nodes[n], n, s.nodes[n], s.attempts) {
      BlankNodes(d, n);
    }
  }

  lemma SeededFlow(d: Doc, c: Command)
    requires ValidDoc(d) && ValidCommand(c)
    ensures d.entry in d.nodes && d.exit in d.nodes && Seeded(d, c).Ok? && Fits(d, Seeded(d, c).value) && Flow(d, Seeded(d, c).value)
  {
    hide ValidDoc, Seeded, NodeOk;
    DocNames(d);
    SeededShape(d, c);
    DocEnds(d);
    var s := Seeded(d, c).value;
    assert EdgesProject(d, s) by {
      forall i | 0 <= i < |d.edges| ensures d.edges[i].source in s.nodes && s.edges[i] == Projected(d, s, i) {
        EdgeEnds(d, i);
      }
    }
    forall n | n in s.nodes ensures Placed(d, s, n) && NodeFlow(d.nodes[n], s.nodes[n]) {
      BlankNodes(d, n);
    }
  }

  lemma EdgeEnds(d: Doc, i: nat)
    requires ValidDoc(d) && i < |d.edges|
    ensures d.edges[i].source in d.nodes && d.edges[i].target in d.nodes && d.edges[i].target != d.entry && d.edges[i].source != d.exit
    ensures d.edges[i].source == d.entry ==> d.edges[i].activation.Always?
  {
    assert ValidEdge(d, d.edges[i]);
    assert ValidNode(d, d.entry);
  }

  // An engine is created exactly for a valid definition and a valid command, and starts well.
  lemma NewKeeps(d: Doc, c: Command)
    ensures New(d, c).Ok? <==> ValidDoc(d) && ValidCommand(c)
    ensures New(d, c).Ok? ==> Inv(d, New(d, c).value) && New(d, c).value.run.command == c && New(d, c).value.attempts == map[]
  {
    hide ValidDoc, Driving, Inv, Drive, Seeded, ValidCommand;
    if ValidDoc(d) {
      SeededKeeps(d, c);
      if ValidCommand(c) {
        DriveKeeps(d, Seeded(d, c).value, 0);
        DocNames(d);
        SeededShape(d, c);
      }
    }
  }

  // ---------------------------------------------------------------- whole runs

  datatype Op =
    | Queue(node: Id, attempt: Id)
    | Start(attempt: Id)
    | Record(attempt: Id, result: AttemptResult)
    | Completed(attempt: Id, at: Time)
    | Due(node: Id, at: Time)
    | Cancel(at: Time)
    | Deadline(at: Time)

  // The state after one operation; an operation that fails leaves the state as it was.
  ghost function Apply(d: Doc, s: State, op: Op): State
    requires Fits(d, s)
  {
    match op
    case Queue(n, a) => (match QueueNode(s, n, a) case Ok(t) => t case Err => s)
    case Start(a) => (match StartAttempt(s, a) case Ok(t) => t case Err => s)
    case Record(a, r) => (match RecordResult(s, a, r) case Ok((t, _)) => t case Err => s)
    case Completed(a, at) => (match HandleCompleted(d, s, a, at) case Ok(t) => t case Err => s)
    case Due(n, at) => (match RetryDue(d, s, n, at) case Ok(t) => t case Err => s)
    case Cancel(at) => (match RequestCancel(d, s, at) case Ok((t, _)) => t case Err => s)
    case Deadline(at) => (match DeadlineReached(d, s, at) case Ok((t, _)) => t case Err => s)
  }

  // Every operation keeps the invariant, whoever issues it and in whatever order.  Once a run is
  // terminating, its intent is final and no attempt is created any more.
  lemma ApplyKeeps(d: Doc, s: State, op: Op)
    requires Inv(d, s)
    ensures Fits(d, s) && Inv(d, Apply(d, s, op))
    ensures s.run.termination.Some? ==>
              Apply(d, s, op).run.termination == s.run.termination && Apply(d, s, op).attempts.Keys == s.attempts.Keys
  {
    hide Inv, HandleCompleted, RetryDue, RequestStop;
    InvFits(d, s);
    match op
    case Queue(n, a) => QueueKeeps(d, s, n, a);
    case Start(a) => StartKeeps(d, s, a);
    case Record(a, r) => RecordKeeps(d, s, a, r);
    case Completed(a, at) => HandleKeeps(d, s, a, at);
    case Due(n, at) => RetryDueKeeps(d, s, n, at);
    case Cancel(at) => RequestStopKeeps(d, s, Intent(CanceledKind, at, Failure(RUN_CANCELED, "run_control", "", "", "")));
    case Deadline(at) => RequestStopKeeps(d, s, Intent(TimedOutKind, at, Failure(RUN_TIMED_OUT, "run_deadline", "", "", "")));
  }

  lemma InvFits(d: Doc, s: State)
    requires Inv(d, s)
    ensures Fits(d, s)
  {
    hide ValidDoc, Flow, Wound, NodeOk, AttemptOk;
  }

  // A run: the states an engine goes through under any sequence of operations.
  ghost predicate IsRun(d: Doc, c: Command, ops: seq<Op>, states: seq<State>) {
    && |states| == |ops| + 1
    && New(d, c) == Ok(states[0])
    && forall i :: 0 <= i < |ops| ==> Follows(d, states[i], ops[i], states[i + 1])
  }

  ghost predicate Follows(d: Doc, s: State, op: Op, t: State) {
    Fits(d, s) && t == Apply(d, s, op)
  }

  // The invariant holds in every state of every run.
  lemma {:induction false} InvAlways(d: Doc, c: Command, ops: seq<Op>, states: seq<State>, i: nat)
    requires IsRun(d, c, ops, states) && i < |states|
    ensures Inv(d, states[i])
  {
    hide Inv, Apply, New;
    if i == 0 {
      NewKeeps(d, c);
    } else {
      InvAlways(d, c, ops, states, i - 1);
      assert Follows(d, states[i - 1], ops[i - 1], states[i]);
      ApplyKeeps(d, states[i - 1], ops[i - 1]);
    }
  }

  // Every valid definition and command has a run under every sequence of operations.
  lemma {:induction false} RunExists(d: Doc, c: Command, ops: seq<Op>) returns (states: seq<State>)
    requires New(d, c).Ok?
    ensures IsRun(d, c, ops, states)
    decreases |ops|
  {
    hide Inv, Apply, New;
    if ops == [] {
      states := [New(d, c).value];
    } else {
      var rest, last := ops[..|ops| - 1], ops[|ops| - 1];
      var before := RunExists(d, c, rest);
      InvAlways(d, c, rest, before, |rest|);
      InvFits(d, before[|rest|]);
      states := before + [Apply(d, before[|rest|], last)];
      forall i | 0 <= i < |ops| ensures Follows(d, states[i], ops[i], states[i + 1]) {
        if i < |rest| { assert Follows(d, before[i], rest[i], before[i + 1]); }
      }
    }
  }
}
