/**
 What every reachable engine state satisfies, and that every operation keeps it.
 */
module EngineInvariants {
  import opened Ids
  import opened Json
  import opened Runtime
  import opened Workflow
  import opened EngineSpec

  // ---------------------------------------------------------------- records

  // The next attempt that the node may queue is within its policy.
  ghost predicate MayQueue(def: NodeDef, node: NodeRun) {
    if node.nextKind.Recovery? then node.recovery < def.policy.maxRecoveries else node.business < def.policy.maxAttempts
  }

  // The attempt counters add up and stay within the policy.
  ghost predicate Counted(def: NodeDef, node: NodeRun) {
    && node.nextSeq == node.business + node.recovery
    && node.business <= def.policy.maxAttempts && node.recovery <= def.policy.maxRecoveries
    && (node.kind.Task? && (node.state.Pending? || node.state.Ready? || node.state.RetryWait?) ==> MayQueue(def, node))
    && (node.state.RetryWait? ==> node.nextRetryAt > 0)
  }

  // The current attempt of a node agrees with the state of the node.
  ghost predicate Linked(n: Id, node: NodeRun, attempts: map<Id, Attempt>) {
    && (node.current == "" <==> node.nextSeq == 0)
    && (node.current != "" ==>
          node.current in attempts && attempts[node.current].node == n && attempts[node.current].sequence == node.nextSeq)
    && (node.state.Pending? ==> node.current == "")
    && (node.state.Queued? ==>
          && node.current != ""
          && (attempts[node.current].state.AttemptQueued? || attempts[node.current].state.AttemptCanceled?))
    && (node.state.Running? ==> node.current != "" && !attempts[node.current].state.AttemptQueued?)
    && (!node.state.Queued? && !node.state.Running? && node.current != "" ==> attempts[node.current].state.Terminal())
  }

  ghost predicate NodeOk(def: NodeDef, n: Id, node: NodeRun, attempts: map<Id, Attempt>) {
    && node.kind == def.Kind() && node.version >= 1
    && (node.kind.Control? ==> node.current == "" && node.effective == "" && (node.state.Pending? || node.state.Terminal()))
    && (node.state.Skipped? ==> !node.activated)
    && (!node.state.Pending? && !node.state.Skipped? && !node.state.Canceled? ==> node.activated)
    && (node.effective != "" ==> node.state.Succeeded?)
    && Counted(def, node)
    && Linked(n, node, attempts)
  }

  // An attempt holds a result exactly when it is over, and an open attempt is its node's current one.
  ghost predicate AttemptOk(nodes: map<Id, NodeRun>, a: Id, attempt: Attempt) {
    && a != "" && attempt.node in nodes && attempt.node != "" && attempt.sequence >= 1 && attempt.version >= 1
    && (attempt.state.Terminal() <==> attempt.result.Some?)
    && (attempt.result.Some? ==> attempt.result.value.state == attempt.state
                                 && (attempt.result.value.code == "" <==> attempt.state.AttemptSucceeded?))
    && (!attempt.state.Terminal() ==> nodes[attempt.node].current == a)
  }

  ghost predicate RunOk(d: Doc, run: Run) {
    && ValidCommand(run.command) && run.nodeIds == d.nodes.Keys && run.version >= 1
    && (run.output.Some? <==> run.state.RunSucceeded?)
    && (run.output.Some? ==> run.output.value.Obj?)
    && (run.termination.None? ==> run.state.RunRunning? || run.state.RunSucceeded?)
    && (run.termination.Some? ==> run.state.RunRunning? || run.state == TerminalStateOf(run.termination.value.kind))
  }

  // A node that ended badly: only a terminating run has one.
  ghost predicate EndedBadly(node: NodeRun) {
    node.state.Failed? || node.state.TimedOut? || node.state.Canceled?
  }

  ghost predicate Core(d: Doc, s: State) {
    && Fits(d, s)
    && (forall n :: n in s.nodes ==> NodeOk(d.nodes[n], n, s.nodes[n], s.attempts))
    && (forall a :: a in s.attempts ==> AttemptOk(s.nodes, a, s.attempts[a]))
    && RunOk(d, s.run)
    && (forall n :: n in s.nodes && EndedBadly(s.nodes[n]) ==> s.run.termination.Some?)
  }

  // ---------------------------------------------------------------- the flow of control

  // The state of edge i read off its source.
  function Projected(d: Doc, s: State, i: nat): EdgeState
    requires i < |d.edges| && d.edges[i].source in s.nodes
  {
    var source := s.nodes[d.edges[i].source];
    if source.state.Terminal() then SettledAs(d.edges[i], source.state, source.route) else EdgePending
  }

  ghost predicate EdgesProject(d: Doc, s: State) {
    |s.edges| == |d.edges| && forall i :: 0 <= i < |d.edges| ==> d.edges[i].source in s.nodes && s.edges[i] == Projected(d, s, i)
  }

  // A node that left the pending state, or was activated, had all its incoming edges settled; it was
  // skipped exactly when none of them was active.
  ghost predicate Placed(d: Doc, s: State, n: Id)
    requires |s.edges| == |d.edges| && n in s.nodes
  {
    var node := s.nodes[n];
    n != d.entry && (node.activated || !node.state.Pending?) ==>
      AllIncomingSettled(d, s, n) && (AnyIncomingActive(d, s, n) <==> !node.state.Skipped?)
  }

  ghost predicate OutputsOk(def: NodeDef, values: map<string, Value>) {
    forall k :: k in def.outputs ==>
      k in values && RuntimeType(values[k]).Some? && Compatible(RuntimeType(values[k]).value, def.outputs[k])
  }

  ghost predicate NodeFlow(def: NodeDef, node: NodeRun) {
    && (node.state.Succeeded? ==> OutputsOk(def, node.outputs))
    && (if def.op.BranchOp? && node.state.Succeeded? then node.route in RoutesOf(def.op) else node.route == "")
  }

  ghost predicate RunFlow(d: Doc, s: State)
    requires d.exit in s.nodes
  {
    && (s.run.state.RunSucceeded? <==> s.nodes[d.exit].state.Succeeded?)
    && (s.nodes[d.exit].state.Succeeded? ==> AllTerminal(s))
  }

  ghost predicate Flow(d: Doc, s: State)
    requires Fits(d, s) && d.entry in d.nodes && d.exit in d.nodes
  {
    && EdgesProject(d, s)
    && s.nodes[d.entry].state.Succeeded?
    && (forall n :: n in s.nodes ==> Placed(d, s, n))
    && (forall n :: n in s.nodes ==> NodeFlow(d.nodes[n], s.nodes[n]))
    && RunFlow(d, s)
  }

  // What a terminating run looks like after every operation: only nodes with an attempt out are
  // still open, and the run is over exactly when no node is.
  ghost predicate Wound(s: State) {
    && (forall n :: n in s.nodes && !s.nodes[n].state.Terminal() ==> s.nodes[n].state.Queued? || s.nodes[n].state.Running?)
    && (s.run.state.Terminal() <==> AllTerminal(s))
  }

  ghost predicate Inv(d: Doc, s: State) {
    && ValidDoc(d) && Core(d, s)
    && (s.run.termination.None? ==> Flow(d, s))
    && (s.run.termination.Some? ==> Wound(s))
  }

  // ---------------------------------------------------------------- changing one node

  // Core survives a change to the record of n and to the run.
  lemma CoreUpdate(d: Doc, s: State, t: State, n: Id)
    requires Core(d, s) && OnlyNode(s, t, n)
    requires NodeOk(d.nodes[n], n, t.nodes[n], t.attempts) && t.nodes[n].current == s.nodes[n].current
    requires RunOk(d, t.run) && (s.run.termination.Some? ==> t.run.termination.Some?)
    requires EndedBadly(t.nodes[n]) ==> t.run.termination.Some?
    ensures Core(d, t)
  {
    assert t.nodes.Keys == s.nodes.Keys;
    forall a | a in t.attempts ensures AttemptOk(t.nodes, a, t.attempts[a]) {
      assert AttemptOk(s.nodes, a, s.attempts[a]);
    }
    forall m | m in t.nodes ensures NodeOk(d.nodes[m], m, t.nodes[m], t.attempts) {
      assert NodeOk(d.nodes[m], m, s.nodes[m], s.attempts);
    }
  }

  // The edges of t are those of s, with the outgoing edges of n settled if n is now over.
  ghost predicate EdgesFollow(d: Doc, s: State, t: State, n: Id)
    requires Fits(d, t) && n in t.nodes && |s.edges| == |d.edges|
  {
    t.edges == if t.nodes[n].state.Terminal() then SettledEdges(d, t.(edges := s.edges), n, t.nodes[n].route) else s.edges
  }

  // An open node has only pending edges, so no node already placed is behind it.
  lemma OpenIsBehindNone(d: Doc, s: State, n: Id, m: Id, i: nat)
    requires Fits(d, s) && EdgesProject(d, s) && n in s.nodes && !s.nodes[n].state.Terminal()
    requires AllIncomingSettled(d, s, m) && i < |d.edges| && d.edges[i].target == m
    ensures d.edges[i].source != n
  {
    assert s.edges[i] == Projected(d, s, i);
  }

  // A node whose incoming edges were settled keeps them as they were.
  lemma IncomingKept(d: Doc, s: State, t: State, n: Id, m: Id)
    requires Fits(d, s) && Fits(d, t) && EdgesProject(d, s) && n in s.nodes && !s.nodes[n].state.Terminal()
    requires EdgesFollow(d, s, t, n)
    requires AllIncomingSettled(d, s, m)
    ensures AllIncomingSettled(d, t, m) && AnyIncomingActive(d, t, m) == AnyIncomingActive(d, s, m)
  {
    forall i | 0 <= i < |d.edges| && d.edges[i].target == m ensures t.edges[i] == s.edges[i] {
      OpenIsBehindNone(d, s, n, m, i);
    }
  }

  // Flow survives a change to one open node.
  lemma FlowUpdate(d: Doc, s: State, t: State, n: Id)
    requires d.entry in d.nodes && d.exit in d.nodes
    requires Fits(d, s) && Flow(d, s) && OnlyNode(s, t, n) && Fits(d, t)
    requires n != d.entry && !s.nodes[n].state.Terminal()
    requires EdgesFollow(d, s, t, n)
    requires t.nodes[n].activated || !t.nodes[n].state.Pending? ==>
               AllIncomingSettled(d, s, n) && (AnyIncomingActive(d, s, n) <==> !t.nodes[n].state.Skipped?)
    requires NodeFlow(d.nodes[n], t.nodes[n])
    requires n != d.exit ==> t.run.state == s.run.state
    requires n == d.exit ==> RunFlow(d, t)
    ensures Flow(d, t)
  {
    assert EdgesProject(d, t) by {
      EdgesUpdate(d, s, t, n);
    }
    forall m | m in t.nodes ensures Placed(d, t, m) && NodeFlow(d.nodes[m], t.nodes[m]) {
      if m != n {
        assert Placed(d, s, m) && NodeFlow(d.nodes[m], s.nodes[m]);
      }
      PlacedUpdate(d, s, t, n, m);
    }
    assert RunFlow(d, t) by {
      if n != d.exit {
        assert !s.nodes[d.exit].state.Succeeded?;
      }
    }
  }

  lemma EdgesUpdate(d: Doc, s: State, t: State, n: Id)
    requires Fits(d, s) && EdgesProject(d, s) && OnlyNode(s, t, n) && Fits(d, t)
    requires !s.nodes[n].state.Terminal() && EdgesFollow(d, s, t, n)
    ensures EdgesProject(d, t)
  {
    forall i | 0 <= i < |d.edges| ensures d.edges[i].source in t.nodes && t.edges[i] == Projected(d, t, i) {
      assert s.edges[i] == Projected(d, s, i);
    }
  }

  lemma PlacedUpdate(d: Doc, s: State, t: State, n: Id, m: Id)
    requires Fits(d, s) && EdgesProject(d, s) && OnlyNode(s, t, n) && Fits(d, t) && m in s.nodes
    requires !s.nodes[n].state.Terminal() && EdgesFollow(d, s, t, n)
    requires m != n ==> Placed(d, s, m)
    requires m == n && (t.nodes[n].activated || !t.nodes[n].state.Pending?) ==>
               AllIncomingSettled(d, s, n) && (AnyIncomingActive(d, s, n) <==> !t.nodes[n].state.Skipped?)
    ensures Placed(d, t, m)
  {
    if m != d.entry && (t.nodes[m].activated || !t.nodes[m].state.Pending?) {
      IncomingKept(d, s, t, n, m);
    }
  }
}
