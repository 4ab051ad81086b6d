/**
 The order in which completions arrive does not matter.  Two ingredients: every fired node can
 be explained by the outputs its sources still show, and driving is a climb in an order of states
 that a settled state bounds from above.
 */
module EngineConfluence {
  import opened Ids
  import opened Json
  import opened Runtime
  import opened Workflow
  import opened EngineSpec
  import opened EngineInvariants
  import opened EngineDrive
  import opened EngineSafety
  import opened EngineContinuity
  import B = Branch

  // ---------------------------------------------------------------- provenance

  lemma ResolveGrows(s: State, t: State, def: NodeDef)
    requires KeepsSettled(s, t)
    ensures !ResolveInputs(s, def).NotReady? ==> ResolveInputs(t, def) == ResolveInputs(s, def)
  {
    forall k | k in def.inputs && !Bind(s, def.inputs[k]).Waiting? ensures Bind(t, def.inputs[k]) == Bind(s, def.inputs[k]) {}
    if ResolveInputs(s, def).Resolved? {
      var values := map k | k in def.inputs :: Bind(t, def.inputs[k]).value;
      assert forall k :: k in def.inputs ==> Bind(s, def.inputs[k]).Has?;
      assert ResolveInputs(s, def).values == values;
    }
  }

  function InputOf(values: map<string, Value>, name: string): Value {
    if name in values then values[name] else Null
  }

  // A node that fired did so on the values its bindings still have, and did with them what its
  // operation says.
  ghost predicate Fired(d: Doc, s: State, n: Id)
    requires Fits(d, s) && n in s.nodes
  {
    n != d.entry && !s.nodes[n].state.Pending? && !s.nodes[n].state.Skipped? ==>
      FiredOn(d.nodes[n], s.nodes[n], s.run, ResolveInputs(s, d.nodes[n]))
  }

  ghost predicate FiredOn(def: NodeDef, node: NodeRun, run: Run, inputs: Inputs) {
    && inputs.Resolved?
    && match def.op
       case TaskOp => node.inputs == inputs.values
       case BranchOp(cases, fallback) => B.Evaluate(cases, fallback, InputOf(inputs.values, "value")) == B.Took(node.route)
       case EndOp => run.output == Some(InputOf(inputs.values, "workflow_output"))
       case StartOp => true
  }

  ghost predicate Explained(d: Doc, s: State)
    requires Fits(d, s)
  {
    forall n :: n in s.nodes ==> Fired(d, s, n)
  }

  // Changing one open node leaves every other explanation standing.
  lemma ExplainedUpdate(d: Doc, s: State, t: State, n: Id)
    requires Fits(d, s) && Fits(d, t) && Explained(d, s) && n in s.nodes && t.nodes == s.nodes[n := t.nodes[n]]
    requires !s.nodes[n].state.Terminal() || t.nodes[n] == s.nodes[n]
    requires t.run.output == s.run.output || d.nodes[n].op.EndOp?
    requires forall m :: m in d.nodes && d.nodes[m].op.EndOp? && d.nodes[n].op.EndOp? ==> m == n
    requires Fired(d, t, n)
    ensures Explained(d, t)
  {
    hide ResolveInputs, B.Evaluate;
    forall m | m in t.nodes ensures Fired(d, t, m) {
      if m != n {
        assert Fired(d, s, m);
        ResolveGrows(s, t, d.nodes[m]);
      }
    }
  }

  // Moving a node between open states changes no explanation.
  lemma ExplainedOpen(d: Doc, s: State, t: State, n: Id)
    requires Fits(d, s) && Fits(d, t) && Explained(d, s) && n in s.nodes && t.nodes == s.nodes[n := t.nodes[n]] && t.run == s.run
    requires t.nodes[n] == s.nodes[n] ||
             (!s.nodes[n].state.Terminal() && !s.nodes[n].state.Pending? && t.nodes[n].inputs == s.nodes[n].inputs && d.nodes[n].op.TaskOp?)
    ensures Explained(d, t)
  {
    hide ResolveInputs, B.Evaluate;
    assert Fired(d, s, n);
    ResolveGrows(s, t, d.nodes[n]);
    if t.nodes[n] == s.nodes[n] {
      assert t.nodes == s.nodes;
      forall m | m in t.nodes ensures Fired(d, t, m) {
        assert Fired(d, s, m);
        ResolveGrows(s, t, d.nodes[m]);
      }
    } else {
      ExplainedUpdate(d, s, t, n);
    }
  }

  // ---------------------------------------------------------------- the order of states

  // y is a record that visits make of a pending x.
  ghost predicate Visited(def: NodeDef, x: NodeRun, y: NodeRun) {
    var z := Activated(x);
    || y == z
    || (y == x.(state := Skipped, version := x.version + 1) && !x.activated)
    || (y == z.(state := Ready, version := z.version + 1, inputs := y.inputs) && def.op.TaskOp?)
    || (y == z.(state := Succeeded, version := z.version + 1, route := y.route, outputs := map[]) && def.op.BranchOp?)
    || (y == z.(state := Succeeded, version := z.version + 1) && def.op.EndOp?)
  }

  // y is what the success of its current attempt makes of an open x.
  ghost predicate Completes(x: NodeRun, y: NodeRun, attempts: map<Id, Attempt>) {
    && x.current in attempts && attempts[x.current].result.Some?
    && y == x.(state := Succeeded, version := x.version + 1, effective := x.current, outputs := attempts[x.current].result.value.outputs)
  }

  ghost predicate Grew(def: NodeDef, x: NodeRun, y: NodeRun, attempts: map<Id, Attempt>) {
    || y == x
    || (x.state.Pending? && Visited(def, x, y))
    || ((x.state.Queued? || x.state.Running?) && Completes(x, y, attempts))
  }

  ghost predicate RunGrew(s: State, t: State) {
    || t.run == s.run
    || (s.run.state.RunRunning? && t.run == s.run.(output := t.run.output, state := RunSucceeded, version := s.run.version + 1))
  }

  // t is above s: reached from s by visits and successes, in whatever order.
  ghost predicate Below(d: Doc, s: State, t: State) {
    && Fits(d, s) && Fits(d, t) && t.attempts == s.attempts && RunGrew(s, t)
    && forall m :: m in s.nodes ==> Grew(d.nodes[m], s.nodes[m], t.nodes[m], s.attempts)
  }

  lemma GrewTransitive(def: NodeDef, x: NodeRun, y: NodeRun, z: NodeRun, attempts: map<Id, Attempt>)
    requires Grew(def, x, y, attempts) && Grew(def, y, z, attempts)
    ensures Grew(def, x, z, attempts)
  {
  }

  lemma GrewAntisymmetric(def: NodeDef, x: NodeRun, y: NodeRun, attempts: map<Id, Attempt>)
    requires Grew(def, x, y, attempts) && Grew(def, y, x, attempts)
    ensures x == y
  {
  }

  lemma BelowTransitive(d: Doc, s: State, t: State, u: State)
    requires Below(d, s, t) && Below(d, t, u)
    ensures Below(d, s, u)
  {
    hide Grew;
    forall m | m in s.nodes ensures Grew(d.nodes[m], s.nodes[m], u.nodes[m], s.attempts) {
      GrewTransitive(d.nodes[m], s.nodes[m], t.nodes[m], u.nodes[m], s.attempts);
    }
  }

  // Two states above each other are the same: every real change raises a version.
  lemma BelowAntisymmetric(d: Doc, s: State, t: State)
    requires Driving(d, s) && Driving(d, t) && Below(d, s, t) && Below(d, t, s)
    ensures s == t
  {
    hide Grew, Core, Placed, NodeFlow, RunFlow;
    forall m | m in s.nodes ensures s.nodes[m] == t.nodes[m] {
      GrewAntisymmetric(d.nodes[m], s.nodes[m], t.nodes[m], s.attempts);
    }
    assert s.nodes == t.nodes;
    forall i | 0 <= i < |d.edges| ensures s.edges[i] == t.edges[i] {
      assert s.edges[i] == Projected(d, s, i) && t.edges[i] == Projected(d, t, i);
    }
  }

  lemma BelowKeepsSettled(d: Doc, s: State, t: State)
    requires Below(d, s, t)
    ensures KeepsSettled(s, t)
  {
    hide Visited, Completes;
    forall m | m in s.nodes && s.nodes[m].state.Terminal() ensures t.nodes[m] == s.nodes[m] {
      assert Grew(d.nodes[m], s.nodes[m], t.nodes[m], s.attempts);
    }
  }

  // Replacing one record by a larger one goes up; by one that is still below t stays below t.
  lemma BelowUpdate(d: Doc, s: State, r: State, n: Id)
    requires Fits(d, s) && Fits(d, r) && n in s.nodes && r.nodes == s.nodes[n := r.nodes[n]] && r.attempts == s.attempts
    requires Grew(d.nodes[n], s.nodes[n], r.nodes[n], s.attempts) && RunGrew(s, r)
    ensures Below(d, s, r)
  {
    hide Visited, Completes;
  }

  lemma BelowStays(d: Doc, s: State, r: State, t: State, n: Id)
    requires Below(d, s, t) && Fits(d, r) && n in s.nodes && r.nodes == s.nodes[n := r.nodes[n]] && r.attempts == s.attempts
    requires Grew(d.nodes[n], r.nodes[n], t.nodes[n], s.attempts) && RunGrew(r, t)
    ensures Below(d, r, t)
  {
    hide Grew;
    forall m | m in r.nodes ensures Grew(d.nodes[m], r.nodes[m], t.nodes[m], r.attempts) {
      assert Grew(d.nodes[m], s.nodes[m], t.nodes[m], s.attempts);
    }
  }

  // ---------------------------------------------------------------- settled states

  // Firing n would change nothing.
  ghost predicate Idles(s: State, def: NodeDef, n: Id) {
    var inputs := ResolveInputs(s, def);
    inputs.NotReady? || (inputs.Resolved? && def.op.EndOp? && !OthersTerminal(s, n))
  }

  ghost predicate Stalled(d: Doc, s: State, n: Id)
    requires Fits(d, s) && n in s.nodes
  {
    n != d.entry && s.nodes[n].state.Pending? && AllIncomingSettled(d, s, n) ==>
      AnyIncomingActive(d, s, n) && s.nodes[n].activated && Idles(s, d.nodes[n], n)
  }

  // Visiting any node would change nothing.
  ghost predicate Saturated(d: Doc, s: State)
    requires Fits(d, s)
  {
    forall n :: n in s.nodes ==> Stalled(d, s, n)
  }

  // ---------------------------------------------------------------- firing

  lemma FireIdles(d: Doc, s: State, n: Id, at: Time)
    requires Firing(d, s, n) && GoodTime(s, at) && Fits(d, s)
    ensures Fire(d, s, n, at).Idle? <==> Idles(s, d.nodes[n], n)
    ensures Fire(d, s, n, at).Tripped? ==>
              ResolveInputs(s, d.nodes[n]).Refused? ||
              (ResolveInputs(s, d.nodes[n]).Resolved? && d.nodes[n].op.BranchOp? && !B.Evaluate(d.nodes[n].op.cases, d.nodes[n].op.fallback,
                InputOf(ResolveInputs(s, d.nodes[n]).values, "value")).Took?)
  {
    hide Firing, GoodTime, ResolveInputs, B.Evaluate, OthersTerminal, ValidNode, NodeFlow, CompleteWorkflowSuccess;
    FiringNode(d, s, n);
    FireKeeps(d, s, n, at);
  }

  // What a node that fires becomes.
  lemma FireMoves(d: Doc, s: State, n: Id, at: Time)
    requires Firing(d, s, n) && GoodTime(s, at) && Fits(d, s) && Fire(d, s, n, at).Moved?
    ensures var r := Fire(d, s, n, at).s;
            && OnlyNode(s, r, n) && !r.nodes[n].state.Pending? && !r.nodes[n].state.Skipped?
            && Visited(d.nodes[n], s.nodes[n], r.nodes[n]) && RunGrew(s, r) && (!d.nodes[n].op.EndOp? ==> r.run == s.run)
            && FiredOn(d.nodes[n], r.nodes[n], r.run, ResolveInputs(s, d.nodes[n]))
            && (d.nodes[n].op.EndOp? ==> OthersTerminal(s, n) && r.nodes[n].state.Succeeded? && r.run.state.RunSucceeded? && r.run != s.run)
  {
    hide Firing, GoodTime, ResolveInputs, B.Evaluate, ValidNode, NodeFlow;
    FiringNode(d, s, n);
    FireShape(d, s, n, at);
  }

  // The record a node fires to is determined by its inputs.
  lemma FiredUnique(def: NodeDef, x: NodeRun, y: NodeRun, z: NodeRun, yRun: Run, zRun: Run, inputs: Inputs)
    requires x.state.Pending? && Visited(def, x, y) && Visited(def, x, z) && !def.op.StartOp?
    requires !y.state.Pending? && !y.state.Skipped? && !z.state.Pending? && !z.state.Skipped?
    requires FiredOn(def, y, yRun, inputs) && FiredOn(def, z, zRun, inputs)
    ensures y == z && (def.op.EndOp? ==> yRun.output == zRun.output)
  {
    hide B.Evaluate;
  }

  // An activated node that has not been skipped is above its activation.
  lemma ActivationStays(def: NodeDef, x: NodeRun, y: NodeRun, attempts: map<Id, Attempt>)
    requires Grew(def, x, y, attempts) && x.state.Pending? && !y.state.Skipped? && (y.state.Pending? ==> y.activated)
    ensures Grew(def, Activated(x), y, attempts)
  {
  }

  lemma NodeRoles(d: Doc, n: Id)
    requires ValidDoc(d) && n in d.nodes
    ensures ValidNode(d, n) && (d.nodes[n].op.EndOp? <==> n == d.exit) && (d.nodes[n].op.StartOp? <==> n == d.entry)
  {
    hide HasIncoming, HasOutgoing, HasRouteEdge, ValidBinding, ValidEdges;
    assert ValidNode(d, n);
  }

  lemma OneEnd(d: Doc, n: Id)
    requires ValidDoc(d) && n in d.nodes
    ensures forall m :: m in d.nodes && d.nodes[m].op.EndOp? && d.nodes[n].op.EndOp? ==> m == n
  {
    hide ValidDoc, ValidNode;
    forall m | m in d.nodes && d.nodes[m].op.EndOp? && d.nodes[n].op.EndOp? ensures m == n {
      NodeRoles(d, m);
      NodeRoles(d, n);
    }
  }

  // Activating a pending node changes no explanation.
  lemma ExplainedActivate(d: Doc, s: State, n: Id)
    requires ValidDoc(d) && Fits(d, s) && Explained(d, s) && n in s.nodes && s.nodes[n].state.Pending?
    ensures Explained(d, SetNode(s, n, Activated(s.nodes[n])))
  {
    hide ValidDoc, ResolveInputs, FiredOn;
    OneEnd(d, n);
    ExplainedUpdate(d, s, SetNode(s, n, Activated(s.nodes[n])), n);
  }

  lemma FireClimbs(d: Doc, s: State, n: Id, at: Time)
    requires ValidDoc(d) && Firing(d, s, n) && GoodTime(s, at) && Fits(d, s) && Explained(d, s) && !Fire(d, s, n, at).Tripped?
    ensures var r := Fire(d, s, n, at);
            && !r.Broken? && Fits(d, r.s) && Below(d, s, r.s) && Explained(d, r.s) && (r.Idle? ==> Idles(s, d.nodes[n], n) && r.s == s)
  {
    hide ValidDoc, Firing, GoodTime, Fire, ResolveInputs, FiredOn, Idles, ValidNode, NodeFlow, Visited, Completes, Driving, Falling;
    FiringNode(d, s, n);
    FireKeeps(d, s, n, at);
    FireIdles(d, s, n, at);
    var r := Fire(d, s, n, at);
    if r.Moved? {
      FireMoves(d, s, n, at);
      OneEnd(d, n);
      ResolveGrows(s, r.s, d.nodes[n]);
      assert ResolveInputs(s, d.nodes[n]).Resolved? by { FiredResolved(d.nodes[n], r.s.nodes[n], r.s.run, ResolveInputs(s, d.nodes[n])); }
      assert Fired(d, r.s, n);
      ExplainedUpdate(d, s, r.s, n);
      BelowUpdate(d, s, r.s, n);
    } else {
      BelowReflexive(d, s);
    }
  }

  lemma FiredResolved(def: NodeDef, node: NodeRun, run: Run, inputs: Inputs)
    requires FiredOn(def, node, run, inputs)
    ensures inputs.Resolved?
  {
  }

  lemma BelowReflexive(d: Doc, s: State)
    requires Fits(d, s)
    ensures Below(d, s, s)
  {
    hide Visited, Completes;
  }

  // r is s with n skipped.
  ghost predicate SkippedTo(s: State, r: State, n: Id) {
    && n in s.nodes && s.nodes[n].state.Pending? && !s.nodes[n].activated
    && r.nodes == s.nodes[n := s.nodes[n].(state := Skipped, version := s.nodes[n].version + 1)]
    && r.run == s.run && r.attempts == s.attempts
  }

  lemma SkipClimbs(d: Doc, s: State, r: State, n: Id)
    requires ValidDoc(d) && Fits(d, s) && Fits(d, r) && Explained(d, s) && SkippedTo(s, r, n)
    ensures Below(d, s, r) && Explained(d, r)
  {
    hide ValidDoc, ResolveInputs, FiredOn;
    OneEnd(d, n);
    ExplainedUpdate(d, s, r, n);
    BelowUpdate(d, s, r, n);
  }

  // A visit that does not fail climbs, and keeps everything explained.
  lemma VisitClimbs(d: Doc, s: State, n: Id, at: Time)
    requires ValidDoc(d) && Driving(d, s) && n in s.nodes && GoodTime(s, at) && Fits(d, s) && Explained(d, s) && !Visit(d, s, n, at).Tripped?
    ensures var r := Visit(d, s, n, at);
            && !r.Broken? && Fits(d, r.s) && Below(d, s, r.s) && Explained(d, r.s) && (r.Idle? ==> n in r.s.nodes && Stalled(d, r.s, n))
  {
    hide ValidDoc, Driving, Fire, Explained, Below, ValidNode, Idles;
    NodeRoles(d, n);
    VisitFits(d, s, n, at);
    VisitKeeps(d, s, n, at);
    BelowReflexive(d, s);
    if s.nodes[n].state.Pending? && n != d.entry && AllIncomingSettled(d, s, n) {
      PendingRuns(d, s, n);
      if !AnyIncomingActive(d, s, n) {
        SkipKeeps(d, s, n);
        SkipClimbs(d, s, Visit(d, s, n, at).s, n);
      } else {
        ActivateKeeps(d, s, n);
        var t := SetNode(s, n, s.nodes[n].Activate().value);
        ExplainedActivate(d, s, n);
        ActivateBelow(d, s, n);
        FireClimbs(d, t, n, at);
        BelowTransitive(d, s, t, Fire(d, t, n, at).s);
      }
    }
  }

  lemma PendingRuns(d: Doc, s: State, n: Id)
    requires Driving(d, s) && n in s.nodes && s.nodes[n].state.Pending?
    ensures s.run.state.RunRunning?
  {
    hide Core, Flow;
  }

  lemma ActivateBelow(d: Doc, s: State, n: Id)
    requires Fits(d, s) && n in s.nodes && s.nodes[n].state.Pending?
    ensures Below(d, s, SetNode(s, n, Activated(s.nodes[n])))
  {
    BelowUpdate(d, s, SetNode(s, n, Activated(s.nodes[n])), n);
  }

  // ---------------------------------------------------------------- staying below a settled state

  // t is a settled state that bounds s.
  ghost predicate Bounded(d: Doc, s: State, t: State) {
    && Driving(d, s) && Driving(d, t) && Below(d, s, t) && Explained(d, t) && Saturated(d, t)
  }

  lemma BoundedFacts(d: Doc, s: State, t: State, n: Id)
    requires Bounded(d, s, t) && n in s.nodes
    ensures Fits(d, s) && Fits(d, t) && n in t.nodes && KeepsSettled(s, t) && RunGrew(s, t) && s.attempts == t.attempts
    ensures Grew(d.nodes[n], s.nodes[n], t.nodes[n], s.attempts) && Fired(d, t, n) && Stalled(d, t, n) && Placed(d, t, n)
    ensures RunFlow(d, t)
  {
    hide Grew, Core, NodeFlow, Fired, Stalled, RunFlow, Placed;
    BelowKeepsSettled(d, s, t);
  }

  lemma EdgesAgree(d: Doc, s: State, t: State, n: Id)
    requires Bounded(d, s, t) && n in s.nodes && Fits(d, s) && Fits(d, t) && AllIncomingSettled(d, s, n)
    ensures AllIncomingSettled(d, t, n) && AnyIncomingActive(d, t, n) == AnyIncomingActive(d, s, n)
  {
    hide Grew, Core, NodeFlow, Placed, Fired, Stalled;
    BelowKeepsSettled(d, s, t);
    forall i | 0 <= i < |d.edges| && d.edges[i].target == n ensures t.edges[i] == s.edges[i] {
      assert s.edges[i] == Projected(d, s, i) && t.edges[i] == Projected(d, t, i);
    }
  }

  lemma FireStays(d: Doc, s: State, t: State, n: Id, at: Time)
    requires ValidDoc(d) && Firing(d, s, n) && GoodTime(s, at) && Bounded(d, s, t) && Fits(d, s)
    ensures var r := Fire(d, s, n, at); (r.Idle? && r.s == s) || (r.Moved? && Below(d, r.s, t))
  {
    hide ValidDoc, Firing, GoodTime, Bounded, Fire, ResolveInputs, ValidNode, NodeFlow, Visited, Completes, Driving, Falling,
         FiredOn, AllIncomingSettled, AnyIncomingActive;
    FiringNode(d, s, n);
    NodeRoles(d, n);
    FireKeeps(d, s, n, at);
    FireIdles(d, s, n, at);
    BoundedFacts(d, s, t, n);
    FiringSettled(d, s, n);
    EdgesAgree(d, s, t, n);
    ResolveGrows(s, t, d.nodes[n]);
    var r := Fire(d, s, n, at);
    if r.Tripped? {
      FiredNotTripped(d.nodes[n], t.nodes[n], t.run, ResolveInputs(t, d.nodes[n]));
      assert false;
    } else if r.Moved? {
      FireMoves(d, s, n, at);
      FiredResolved(d.nodes[n], r.s.nodes[n], r.s.run, ResolveInputs(s, d.nodes[n]));
      MovedStays(d, s, r.s, t, n);
    }
  }

  lemma FiringSettled(d: Doc, s: State, n: Id)
    requires Firing(d, s, n)
    ensures Fits(d, s) && n in s.nodes && AllIncomingSettled(d, s, n) && AnyIncomingActive(d, s, n)
  {
    hide Driving;
    DrivingFits(d, s);
  }

  lemma FiredNotTripped(def: NodeDef, node: NodeRun, run: Run, inputs: Inputs)
    ensures FiredOn(def, node, run, inputs) ==>
              inputs.Resolved? && (def.op.BranchOp? ==> B.Evaluate(def.op.cases, def.op.fallback, InputOf(inputs.values, "value")).Took?)
  {
    hide B.Evaluate;
  }

  lemma MovedStays(d: Doc, s: State, r: State, t: State, n: Id)
    requires Bounded(d, s, t) && Fits(d, s) && n in s.nodes && s.nodes[n].state.Pending? && s.nodes[n].activated && n != d.entry
    requires AllIncomingSettled(d, s, n) && AnyIncomingActive(d, s, n)
    requires n in d.nodes && !d.nodes[n].op.StartOp? && (d.nodes[n].op.EndOp? ==> n == d.exit)
    requires OnlyNode(s, r, n) && !r.nodes[n].state.Pending? && !r.nodes[n].state.Skipped?
    requires Visited(d.nodes[n], s.nodes[n], r.nodes[n]) && RunGrew(s, r) && (!d.nodes[n].op.EndOp? ==> r.run == s.run)
    requires FiredOn(d.nodes[n], r.nodes[n], r.run, ResolveInputs(s, d.nodes[n])) && ResolveInputs(s, d.nodes[n]).Resolved?
    requires d.nodes[n].op.EndOp? ==> OthersTerminal(s, n) && r.nodes[n].state.Succeeded? && r.run.state.RunSucceeded? && r.run != s.run
    ensures Below(d, r, t)
  {
    hide Bounded, ResolveInputs, Visited, Completes, FiredOn, AllIncomingSettled, AnyIncomingActive;
    BoundedFacts(d, s, t, n);
    EdgesAgree(d, s, t, n);
    ResolveGrows(s, t, d.nodes[n]);
    FiredUnique(d.nodes[n], s.nodes[n], r.nodes[n], t.nodes[n], r.run, t.run, ResolveInputs(s, d.nodes[n]));
    BelowFromBounded(d, s, t);
    BelowStays(d, s, r, t, n);
  }

  lemma BelowFromBounded(d: Doc, s: State, t: State)
    requires Bounded(d, s, t)
    ensures Below(d, s, t)
  {
  }

  // While a settled state bounds s, a visit cannot fail, and the bound remains one.
  lemma VisitStays(d: Doc, s: State, t: State, n: Id, at: Time)
    requires ValidDoc(d) && n in s.nodes && GoodTime(s, at) && Bounded(d, s, t) && Fits(d, s)
    ensures var r := Visit(d, s, n, at); (r.Idle? || r.Moved?) && Bounded(d, r.s, t)
  {
    hide ValidDoc, Driving, Fire, Explained, Below, Saturated, ValidNode, AllIncomingSettled, AnyIncomingActive, Falling;
    NodeRoles(d, n);
    VisitKeeps(d, s, n, at);
    if s.nodes[n].state.Pending? && n != d.entry && AllIncomingSettled(d, s, n) {
      PendingRuns(d, s, n);
      if !AnyIncomingActive(d, s, n) {
        SkipKeeps(d, s, n);
        VisitFits(d, s, n, at);
        SkipStays(d, s, Visit(d, s, n, at).s, t, n);
      } else {
        ActivateKeeps(d, s, n);
        var u := SetNode(s, n, s.nodes[n].Activate().value);
        ActivateStays(d, s, t, n);
        assert Firing(d, u, n) ==> Driving(d, u);
        FireStays(d, u, t, n, at);
      }
    }
  }

  lemma SkipStays(d: Doc, s: State, r: State, t: State, n: Id)
    requires Bounded(d, s, t) && Fits(d, s) && Fits(d, r) && SkippedTo(s, r, n) && n != d.entry
    requires AllIncomingSettled(d, s, n) && !AnyIncomingActive(d, s, n)
    ensures Below(d, r, t)
  {
    hide Bounded, FiredOn, AllIncomingSettled, AnyIncomingActive, Idles, Completes, Visited;
    BoundedFacts(d, s, t, n);
    EdgesAgree(d, s, t, n);
    BelowFromBounded(d, s, t);
    SkippedUnique(d.nodes[n], s.nodes[n], t.nodes[n], s.attempts);
    BelowStays(d, s, r, t, n);
  }

  lemma SkippedUnique(def: NodeDef, x: NodeRun, y: NodeRun, attempts: map<Id, Attempt>)
    requires Grew(def, x, y, attempts) && x.state.Pending? && y.state.Skipped?
    ensures y == x.(state := Skipped, version := x.version + 1)
  {
  }

  lemma ActivateStays(d: Doc, s: State, t: State, n: Id)
    requires Bounded(d, s, t) && Fits(d, s) && n in s.nodes && s.nodes[n].state.Pending? && n != d.entry
    requires AllIncomingSettled(d, s, n) && AnyIncomingActive(d, s, n)
    ensures Below(d, SetNode(s, n, Activated(s.nodes[n])), t)
  {
    hide Bounded, FiredOn, AllIncomingSettled, AnyIncomingActive, Idles, Visited, Completes;
    BoundedFacts(d, s, t, n);
    EdgesAgree(d, s, t, n);
    BelowFromBounded(d, s, t);
    ActivationStays(d.nodes[n], s.nodes[n], t.nodes[n], s.attempts);
    BelowStays(d, s, SetNode(s, n, Activated(s.nodes[n])), t, n);
  }

  // ---------------------------------------------------------------- passes and driving

  // Only pending nodes change.
  ghost predicate OnlyPending(s: State, t: State) {
    t.nodes.Keys == s.nodes.Keys && forall m :: m in s.nodes && !s.nodes[m].state.Pending? ==> t.nodes[m] == s.nodes[m]
  }

  // The same states, edges and run, though a waiting node may have been activated.
  ghost predicate SameButActivation(s: State, t: State) {
    && t.nodes.Keys == s.nodes.Keys && t.edges == s.edges && t.run == s.run
    && forall m :: m in s.nodes ==> t.nodes[m] == s.nodes[m] || (s.nodes[m].state.Pending? && t.nodes[m] == Activated(s.nodes[m]))
  }

  lemma IdleActivates(d: Doc, s: State, n: Id, at: Time)
    requires Fits(d, s) && n in s.nodes && Visit(d, s, n, at).Idle?
    ensures SameButActivation(s, Visit(d, s, n, at).s)
  {
    hide Fire, AllIncomingSettled, AnyIncomingActive;
    if s.nodes[n].state.Pending? {
      FireShape(d, SetNode(s, n, Activated(s.nodes[n])), n, at);
    }
    VisitShape(d, s, n, at);
  }

  lemma StalledSame(d: Doc, s: State, t: State, n: Id)
    requires Fits(d, s) && Fits(d, t) && SameButActivation(s, t) && n in s.nodes && Stalled(d, s, n)
    ensures Stalled(d, t, n)
  {
    assert forall b :: Bind(t, b) == Bind(s, b);
    if ResolveInputs(s, d.nodes[n]).Resolved? {
      assert ResolveInputs(t, d.nodes[n]).Resolved?;
    }
  }

  lemma OnlyPendingRefl(s: State)
    ensures OnlyPending(s, s) && SameButActivation(s, s)
  {
  }

  lemma OnlyPendingStep(s: State, v: State, r: State, n: Id)
    requires OnlyNode(s, v, n) && (s.nodes[n].state.Pending? || v == s) && OnlyPending(v, r)
    ensures OnlyPending(s, r)
  {
  }

  lemma SameStep(s: State, v: State, r: State)
    requires SameButActivation(s, v) && SameButActivation(v, r)
    ensures SameButActivation(s, r)
  {
  }

  lemma {:induction false} PassClimbs(d: Doc, s: State, ids: seq<Id>, i: nat, at: Time)
    requires ValidDoc(d) && Driving(d, s) && Fits(d, s) && ValidIds(d, ids) && i <= |ids| && GoodTime(s, at) && Explained(d, s)
    requires !Pass(d, s, ids, i, at).Tripped?
    ensures var r := Pass(d, s, ids, i, at);
            && !r.Broken? && Fits(d, r.s) && Below(d, s, r.s) && Explained(d, r.s) && OnlyPending(s, r.s)
            && (r.Idle? ==> SameButActivation(s, r.s) && forall k :: i <= k < |ids| ==> ids[k] in r.s.nodes && Stalled(d, r.s, ids[k]))
    decreases |ids| - i
  {
    hide ValidDoc, Driving, Falling, Visit, ValidNode, Explained, Below, Stalled, OnlyPending, SameButActivation;
    if i == |ids| {
      OnlyPendingRefl(s);
      BelowReflexive(d, s);
    } else {
      var v := Visit(d, s, ids[i], at);
      VisitClimbs(d, s, ids[i], at);
      VisitKeeps(d, s, ids[i], at);
      VisitShape(d, s, ids[i], at);
      VisitCommand(d, s, ids[i], at);
      PassClimbs(d, v.s, ids, i + 1, at);
      var r := Pass(d, v.s, ids, i + 1, at);
      BelowTransitive(d, s, v.s, r.s);
      OnlyPendingStep(s, v.s, r.s, ids[i]);
      if v.Idle? && r.Idle? {
        IdleActivates(d, s, ids[i], at);
        StalledSame(d, v.s, r.s, ids[i]);
        SameStep(s, v.s, r.s);
      }
    }
  }

  lemma {:induction false} PassStays(d: Doc, s: State, t: State, ids: seq<Id>, i: nat, at: Time)
    requires ValidDoc(d) && Bounded(d, s, t) && Fits(d, s) && ValidIds(d, ids) && i <= |ids| && GoodTime(s, at)
    ensures var r := Pass(d, s, ids, i, at); (r.Idle? || r.Moved?) && Bounded(d, r.s, t)
    decreases |ids| - i
  {
    hide ValidDoc, Bounded, Visit, ValidNode;
    if i < |ids| {
      VisitStays(d, s, t, ids[i], at);
      VisitFits(d, s, ids[i], at);
      VisitCommand(d, s, ids[i], at);
      PassStays(d, Visit(d, s, ids[i], at).s, t, ids, i + 1, at);
    }
  }

  // Driving without failure climbs to a settled state that explains itself.
  lemma {:induction false} DriveClimbs(d: Doc, s: State, at: Time)
    requires ValidDoc(d) && Driving(d, s) && Fits(d, s) && GoodTime(s, at) && Explained(d, s)
    requires Drive(d, s, at).Ok? && Drive(d, s, at).value.run.termination.None?
    ensures var t := Drive(d, s, at).value;
            Driving(d, t) && Fits(d, t) && Below(d, s, t) && Explained(d, t) && Saturated(d, t) && OnlyPending(s, t)
    decreases Pendings(s)
  {
    hide ValidDoc, Driving, Falling, Explained, Below, Saturated, Pass, Wind, ValidIds, Stalled;
    DocFacts(d);
    DrivingFits(d, s);
    var ids := Listing(d.nodes.Keys);
    ListingInside(d);
    PassFits(d, s, ids, 0, at);
    PassKeeps(d, s, ids, 0, at);
    var p := Pass(d, s, ids, 0, at);
    if p.Tripped? {
      TrippedTerminates(d, p.s, at);
      assert false;
    } else {
      PassClimbs(d, s, ids, 0, at);
      if p.Idle? {
        SaturatedEverywhere(d, p.s, ids);
      } else if p.s.run.state.Terminal() {
        OverIsSaturated(d, p.s);
      } else {
        DriveClimbs(d, p.s, at);
        BelowTransitive(d, s, p.s, Drive(d, p.s, at).value);
      }
    }
  }

  lemma TrippedTerminates(d: Doc, s: State, at: Time)
    requires ValidDoc(d) && Falling(d, s) && GoodTime(s, at) && Fits(d, s)
    ensures Drive(d, s, at).Ok? ==> Drive(d, s, at).value.run.termination.Some?
  {
    hide ValidDoc, Falling, Inv, Drive;
    DriveKeeps(d, s, at);
    FallingFacts(d, s);
  }

  lemma SaturatedEverywhere(d: Doc, s: State, ids: seq<Id>)
    requires Fits(d, s) && Elements(ids) == d.nodes.Keys && forall k :: 0 <= k < |ids| ==> ids[k] in s.nodes && Stalled(d, s, ids[k])
    ensures Saturated(d, s)
  {
    hide Stalled;
    forall n | n in s.nodes ensures Stalled(d, s, n) {
      assert n in Elements(ids);
      var k :| 0 <= k < |ids| && ids[k] == n;
    }
  }

  lemma OverIsSaturated(d: Doc, s: State)
    requires Driving(d, s) && Fits(d, s) && s.run.state.Terminal()
    ensures Saturated(d, s)
  {
    hide Core, Flow, Idles;
  }

  // Below a settled state, driving cannot fail and stays below it.
  lemma {:induction false} DriveStays(d: Doc, s: State, t: State, at: Time)
    requires ValidDoc(d) && Bounded(d, s, t) && Fits(d, s) && GoodTime(s, at)
    ensures var r := Drive(d, s, at); r.Ok? && r.value.run.termination.None? && Bounded(d, r.value, t)
    decreases Pendings(s)
  {
    hide ValidDoc, Bounded, Pass, Wind, ValidIds, Driving, Falling;
    BoundedRuns(d, s, t);
    DocFacts(d);
    var ids := Listing(d.nodes.Keys);
    ListingInside(d);
    PassFits(d, s, ids, 0, at);
    PassKeeps(d, s, ids, 0, at);
    PassStays(d, s, t, ids, 0, at);
    var p := Pass(d, s, ids, 0, at);
    BoundedRuns(d, p.s, t);
    if p.Moved? && !p.s.run.state.Terminal() {
      DriveStays(d, p.s, t, at);
    }
  }

  lemma BoundedRuns(d: Doc, s: State, t: State)
    requires Bounded(d, s, t)
    ensures Driving(d, s) && s.run.termination.None?
  {
    hide Below, Explained, Saturated, Core, Flow;
  }

  // ---------------------------------------------------------------- completions

  // Attempt a is the current attempt of an open node, and it succeeded.
  ghost predicate Fresh(s: State, a: Id) {
    && a in s.attempts && s.attempts[a].result.Some? && s.attempts[a].state.AttemptSucceeded?
    && s.attempts[a].node in s.nodes && s.nodes[s.attempts[a].node].current == a
    && (s.nodes[s.attempts[a].node].state.Queued? || s.nodes[s.attempts[a].node].state.Running?)
  }

  // What the theorems below assume of a state: everything a run without an intent guarantees.
  ghost predicate Sound(d: Doc, s: State) {
    Inv(d, s) && s.run.termination.None? && Fits(d, s) && Explained(d, s)
  }

  // The state right after the success of a is accepted.
  function Accepted(d: Doc, s: State, a: Id): State
    requires Fits(d, s) && a in s.attempts && s.attempts[a].node in s.nodes && s.attempts[a].result.Some?
  {
    var n := s.attempts[a].node;
    match AcceptSuccess(d, s, n, a, s.attempts[a].result.value.outputs)
    case Ok(t) => t
    case Err => s
  }

  // The outputs of a match the contract of its node.
  ghost predicate Good(d: Doc, s: State, a: Id)
    requires Fits(d, s) && Fresh(s, a)
  {
    ValidOutputs(d.nodes[s.attempts[a].node], s.attempts[a].result.value.outputs)
  }

  // Handling a success without raising an intent accepts it and drives.
  lemma HandleFresh(d: Doc, s: State, a: Id, at: Time)
    requires Sound(d, s) && Fresh(s, a) && UsableTime(s, at)
    ensures var r := HandleCompleted(d, s, a, at);
            && r.Ok?
            && (r.value.run.termination.None? ==> Good(d, s, a))
            && (Good(d, s, a) ==> Fits(d, Accepted(d, s, a)) && Driving(d, Accepted(d, s, a)) && r == Drive(d, Accepted(d, s, a), at))
  {
    hide Inv, ValidDoc, Driving, Falling, Core, NodeOk, Explained, Drive, Concluding, OpenIn, ValidOutputs, FailNode;
    InvFacts(d, s);
    ConcludingFacts(d, s, a);
    OpenFromInv(d, s, a);
    var n := s.attempts[a].node;
    ConcludingIsCurrent(d.nodes[n], n, s.nodes[n], s.attempts, a);
    HandleKeeps(d, s, a, at);
    SuccessKeeps(d, s, a, s.attempts[a].result.value.outputs);
    if !ValidOutputs(d.nodes[n], s.attempts[a].result.value.outputs) {
      var broken := Failure(OUTPUT_CONTRACT, "output_binding", n, a, "outputs");
      FailureRecord(d.nodes[n], n, s.nodes[n], s.attempts, a, Failed, broken);
      FailKeeps(d, s, n, s.nodes[n].FailAttempt(a, Failed, broken).value, broken, at);
      var failed := FailNode(s, n, s.nodes[n].FailAttempt(a, Failed, broken), broken, at).value;
      FallingFacts(d, failed);
      TrippedTerminates(d, failed, at);
    } else {
      DrivingFits(d, Accepted(d, s, a));
    }
  }

  lemma AcceptedShape(d: Doc, s: State, a: Id)
    requires Sound(d, s) && Fresh(s, a) && Good(d, s, a)
    ensures var n, t := s.attempts[a].node, Accepted(d, s, a);
            && n in t.nodes && t.nodes == s.nodes[n := t.nodes[n]] && t.run == s.run && t.attempts == s.attempts && Fits(d, t)
            && Completes(s.nodes[n], t.nodes[n], s.attempts) && d.nodes[n].op.TaskOp? && t.nodes[n].inputs == s.nodes[n].inputs
  {
    hide Inv, Explained, ValidOutputs, SettledEdges, Core, NodeOk, ValidDoc, Concluding;
    InvFacts(d, s);
    ConcludingFacts(d, s, a);
    var n := s.attempts[a].node;
    SuccessRecord(d.nodes[n], n, s.nodes[n], s.attempts, a, s.attempts[a].result.value.outputs);
  }

  lemma AcceptedClimbs(d: Doc, s: State, a: Id)
    requires Sound(d, s) && Fresh(s, a) && Good(d, s, a)
    ensures Below(d, s, Accepted(d, s, a)) && Explained(d, Accepted(d, s, a))
  {
    hide Inv, Good, Accepted, FiredOn, Completes, Visited, ResolveInputs;
    AcceptedShape(d, s, a);
    BelowUpdate(d, s, Accepted(d, s, a), s.attempts[a].node);
    ExplainedOpen(d, s, Accepted(d, s, a), s.attempts[a].node);
  }

  // A success that raised no intent climbs to a settled state, and changes no other open node.
  lemma HandleClimbs(d: Doc, s: State, a: Id, at: Time)
    requires Sound(d, s) && Fresh(s, a) && UsableTime(s, at)
    requires HandleCompleted(d, s, a, at).Ok? && HandleCompleted(d, s, a, at).value.run.termination.None?
    ensures var t := HandleCompleted(d, s, a, at).value;
            && Sound(d, t) && Driving(d, t) && Below(d, s, t) && Saturated(d, t)
            && t.run.command == s.run.command && t.attempts == s.attempts
            && t.nodes[s.attempts[a].node].state.Succeeded?
            && forall m :: m in s.nodes && m != s.attempts[a].node && !s.nodes[m].state.Pending? ==> m in t.nodes && t.nodes[m] == s.nodes[m]
  {
    hide Inv, Driving, Good, Accepted, Explained, Below, Saturated, Drive, Completes, HandleCompleted, ValidDoc;
    HandleFresh(d, s, a, at);
    HandleKeeps(d, s, a, at);
    InvDoc(d, s);
    AcceptedShape(d, s, a);
    AcceptedClimbs(d, s, a);
    CompletesSucceeds(s.nodes[s.attempts[a].node], Accepted(d, s, a).nodes[s.attempts[a].node], s.attempts);
    DriveClimbs(d, Accepted(d, s, a), at);
    BelowTransitive(d, s, Accepted(d, s, a), HandleCompleted(d, s, a, at).value);
  }

  lemma InvDoc(d: Doc, s: State)
    requires Inv(d, s)
    ensures ValidDoc(d)
  {
    hide ValidDoc, Core, Flow, Wound;
  }

  lemma CompletesSucceeds(x: NodeRun, y: NodeRun, attempts: map<Id, Attempt>)
    requires Completes(x, y, attempts)
    ensures y.state.Succeeded?
  {
  }

  // A success already counted in a settled state above stays below that state.
  lemma HandleStays(d: Doc, s: State, t: State, a: Id, at: Time)
    requires Sound(d, s) && Fresh(s, a) && UsableTime(s, at) && Good(d, s, a)
    requires Bounded(d, s, t) && s.attempts[a].node in t.nodes && t.nodes[s.attempts[a].node].state.Succeeded?
    ensures var r := HandleCompleted(d, s, a, at);
            r.Ok? && r.value.run.termination.None? && Bounded(d, r.value, t)
  {
    hide Inv, Driving, Good, Accepted, Explained, Below, Saturated, Drive, Completes, HandleCompleted, ValidDoc, Visited, Fired, Stalled, Placed;
    HandleFresh(d, s, a, at);
    InvDoc(d, s);
    AcceptedShape(d, s, a);
    BoundedFacts(d, s, t, s.attempts[a].node);
    CompletesUnique(s.nodes[s.attempts[a].node], Accepted(d, s, a).nodes[s.attempts[a].node], t.nodes[s.attempts[a].node], s.attempts);
    BelowStays(d, s, Accepted(d, s, a), t, s.attempts[a].node);
    DriveStays(d, Accepted(d, s, a), t, at);
  }

  lemma CompletesUnique(x: NodeRun, y: NodeRun, z: NodeRun, attempts: map<Id, Attempt>)
    requires Completes(x, y, attempts) && Completes(x, z, attempts)
    ensures y == z
  {
  }

  lemma BoundedFrom(d: Doc, s: State, t: State)
    requires Sound(d, s) && Sound(d, t) && Below(d, s, t) && Saturated(d, t)
    ensures Bounded(d, s, t)
  {
    hide Inv, Driving, Explained, Below, Saturated, Core, ValidDoc;
    InvFacts(d, s);
    InvFacts(d, t);
  }

  // If handling a and then b raises no intent, neither does handling b and then a, and the second
  // order ends below the first.
  lemma OtherOrderBelow(d: Doc, s: State, a: Id, b: Id, atA: Time, atB: Time)
    requires Sound(d, s) && Fresh(s, a) && Fresh(s, b) && a != b && UsableTime(s, atA) && UsableTime(s, atB)
    requires HandleCompleted(d, s, a, atA).Ok? && Sound(d, HandleCompleted(d, s, a, atA).value)
    requires var sa := HandleCompleted(d, s, a, atA).value;
             HandleCompleted(d, sa, b, atB).Ok? && HandleCompleted(d, sa, b, atB).value.run.termination.None?
    ensures var sb := HandleCompleted(d, s, b, atB);
            && sb.Ok? && Sound(d, sb.value)
            && var sba := HandleCompleted(d, sb.value, a, atA);
               && sba.Ok? && Sound(d, sba.value)
               && Below(d, sba.value, HandleCompleted(d, HandleCompleted(d, s, a, atA).value, b, atB).value)
  {
    hide Inv, Driving, Good, Explained, Below, Saturated, HandleCompleted, Bounded;
    var sa := HandleCompleted(d, s, a, atA).value;
    HandleClimbs(d, s, a, atA);
    var sab := HandleCompleted(d, sa, b, atB).value;
    SameGood(d, s, sa, b);
    HandleClimbs(d, sa, b, atB);
    BelowTransitive(d, s, sa, sab);
    BoundedFrom(d, s, sab);
    HandleFresh(d, s, a, atA);
    HandleFresh(d, sa, b, atB);
    HandleStays(d, s, sab, b, atB);
    var sb := HandleCompleted(d, s, b, atB).value;
    HandleClimbs(d, s, b, atB);
    SameGood(d, s, sb, a);
    HandleStays(d, sb, sab, a, atA);
    var sba := HandleCompleted(d, sb, a, atA).value;
    HandleClimbs(d, sb, a, atA);
    BelowFromBounded(d, sba, sab);
  }

  lemma SameGood(d: Doc, s: State, t: State, a: Id)
    requires Fits(d, s) && Fits(d, t) && Fresh(s, a) && t.attempts == s.attempts && s.attempts[a].node in t.nodes
    requires t.nodes[s.attempts[a].node] == s.nodes[s.attempts[a].node]
    ensures Fresh(t, a) && Good(d, t, a) == Good(d, s, a)
  {
  }

  // ---------------------------------------------------------------- theorems

  lemma StaleStays(s: State, t: State, a: Id)
    requires !Open(s, a) && Continues(s, t) && t.attempts == s.attempts
    ensures !Open(t, a)
  {
  }

  // Attempt a has completed successfully.
  ghost predicate HasSucceeded(s: State, a: Id) {
    a in s.attempts && s.attempts[a].result.Some? && s.attempts[a].state.AttemptSucceeded?
  }

  // The state after handling the completion of a.
  ghost function Handled(d: Doc, s: State, a: Id, at: Time): State
    requires Fits(d, s)
  {
    Apply(d, s, Completed(a, at))
  }

  // Successful completions of two attempts commute: either both orders raise an intent to terminate,
  // or neither does and both reach the same run, node, attempt and edge records.
  lemma CompletionsCommute(d: Doc, s: State, a: Id, b: Id, atA: Time, atB: Time)
    requires Sound(d, s) && HasSucceeded(s, a) && HasSucceeded(s, b) && a != b && UsableTime(s, atA) && UsableTime(s, atB)
    ensures Fits(d, Handled(d, s, a, atA)) && Fits(d, Handled(d, s, b, atB))
    ensures var ab := Handled(d, Handled(d, s, a, atA), b, atB);
            var ba := Handled(d, Handled(d, s, b, atB), a, atA);
            (ab.run.termination.None? <==> ba.run.termination.None?) && (ab.run.termination.None? ==> ab == ba)
  {
    hide Inv, Explained, HandleCompleted;
    HandleKeeps(d, s, a, atA);
    HandleKeeps(d, s, b, atB);
    var sa, sb := Handled(d, s, a, atA), Handled(d, s, b, atB);
    InvFits(d, sa);
    InvFits(d, sb);
    HandleKeeps(d, sa, b, atB);
    HandleKeeps(d, sb, a, atA);
    HandleCloses(d, s, a, atA);
    HandleCloses(d, s, b, atB);
    if !Open(s, a) {
      StaleChangesNothing(d, s, a, atA);
      StaleStays(s, sb, a);
      StaleChangesNothing(d, sb, a, atA);
    } else if !Open(s, b) {
      StaleChangesNothing(d, s, b, atB);
      StaleStays(s, sa, b);
      StaleChangesNothing(d, sa, b, atB);
    } else {
      OpenCommute(d, s, a, b, atA, atB);
    }
  }

  lemma OpenCommute(d: Doc, s: State, a: Id, b: Id, atA: Time, atB: Time)
    requires Sound(d, s) && Fresh(s, a) && Fresh(s, b) && a != b && UsableTime(s, atA) && UsableTime(s, atB)
    requires Fits(d, Handled(d, s, a, atA)) && Fits(d, Handled(d, s, b, atB))
    ensures var ab := Handled(d, Handled(d, s, a, atA), b, atB);
            var ba := Handled(d, Handled(d, s, b, atB), a, atA);
            (ab.run.termination.None? <==> ba.run.termination.None?) && (ab.run.termination.None? ==> ab == ba)
  {
    hide Inv, Explained, HandleCompleted, Below, Driving;
    HandleKeeps(d, s, a, atA);
    HandleKeeps(d, s, b, atB);
    var sa, sb := Handled(d, s, a, atA), Handled(d, s, b, atB);
    HandleKeeps(d, sa, b, atB);
    HandleKeeps(d, sb, a, atA);
    var ab, ba := Handled(d, sa, b, atB), Handled(d, sb, a, atA);
    if ab.run.termination.None? {
      HandleClimbs(d, s, a, atA);
      OtherOrderBelow(d, s, a, b, atA, atB);
    }
    if ba.run.termination.None? {
      HandleClimbs(d, s, b, atB);
      OtherOrderBelow(d, s, b, a, atB, atA);
    }
    if ab.run.termination.None? {
      SoundDrives(d, ab);
      SoundDrives(d, ba);
      BelowAntisymmetric(d, ab, ba);
    }
  }

  lemma SoundDrives(d: Doc, s: State)
    requires Inv(d, s) && s.run.termination.None?
    ensures Driving(d, s)
  {
    hide Inv, Driving;
    InvFacts(d, s);
  }
}
