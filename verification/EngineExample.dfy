/**
 Small definitions that the contract and the static check accept, so that the theorems about accepted
 definitions speak of something.  In the first, the start hands its input to a task and the end takes the
 output of the task; in the second, a branch leads either way and a reference depends on the route.
 */
module EngineExample {
  import opened Ids
  import opened Json
  import opened Graphs
  import opened Workflow
  import opened EngineProgress
  import opened Runtime
  import opened EngineSpec
  import opened EngineInvariants
  import opened EngineDrive
  import opened EngineSafety
  import opened EngineContinuity
  import opened EngineRestore
  import B = Branch
  import DataBindings

  const NO_POLICY := Policy(0, 0, 0, [])

  const START_DEF := NodeDef(StartOp, map[], map["workflow_input" := TObject], NO_POLICY)
  const TASK_DEF := NodeDef(TaskOp, map["in" := FromOutput(TObject, "start", "workflow_input")], map["out" := TObject], Policy(2, 1, 1, []))
  const END_DEF := NodeDef(EndOp, map["workflow_output" := FromOutput(TObject, "task", "out")], map[], NO_POLICY)

  const SAMPLE := Doc("start", "end", map["start" := START_DEF, "task" := TASK_DEF, "end" := END_DEF],
                      [Link("1", "start", "task", Always), Link("2", "task", "end", Always)])

  lemma SampleOrder()
    ensures IsTopological(GraphOf(SAMPLE), ["start", "task", "end"])
  {
    var order := ["start", "task", "end"];
    assert Elements(order) == GraphOf(SAMPLE).nodes by {
      forall n | n in GraphOf(SAMPLE).nodes ensures n in Elements(order) {
        assert n == order[0] || n == order[1] || n == order[2];
      }
    }
  }

  lemma SampleReaches()
    ensures Reaches(GraphOf(SAMPLE), "start", "task") && Reaches(GraphOf(SAMPLE), "task", "end")
  {
    var g := GraphOf(SAMPLE);
    assert g.edges[0].source == "start" && g.edges[0].target == "task";
    assert g.edges[1].source == "task" && g.edges[1].target == "end";
    assert PathFromTo(g, ["start", "task"], "start", "task");
    assert PathFromTo(g, ["task", "end"], "task", "end");
  }

  // Whatever is chosen, start and task are active.
  lemma SampleActive(r: Routing)
    ensures Active(GraphOf(SAMPLE), "start", r) && Active(GraphOf(SAMPLE), "task", r)
  {
    var g := GraphOf(SAMPLE);
    StartIsActive(g, r);
    assert g.edges[0] in g.edges;
    assert [g.edges[0]][..0] == [];
    assert LivePath(g, [g.edges[0]], "task", r);
  }

  lemma SampleValid()
    ensures ValidDoc(SAMPLE)
  {
    SampleOrder();
    hide IsTopological;
    var d := SAMPLE;
    assert d.edges[0].target == "task" && d.edges[1].target == "end" && d.edges[0].source == "start" && d.edges[1].source == "task";
    assert HasIncoming(d, "task") && HasIncoming(d, "end") && HasOutgoing(d, "start") && HasOutgoing(d, "task");
    SampleNodes();
    hide ValidNode, HasIncoming, HasOutgoing;
  }

  lemma SampleNodes()
    requires HasIncoming(SAMPLE, "task") && HasIncoming(SAMPLE, "end") && HasOutgoing(SAMPLE, "start") && HasOutgoing(SAMPLE, "task")
    ensures ValidNode(SAMPLE, "start") && ValidNode(SAMPLE, "task") && ValidNode(SAMPLE, "end")
  {
    hide HasIncoming, HasOutgoing;
  }

  lemma SampleAccepted()
    ensures Accepted(SAMPLE)
  {
    SampleValid();
    SampleReaches();
    var d := SAMPLE;
    hide ValidDoc, Reaches, Active;
    forall r: Routing ensures Active(GraphOf(d), "start", r) && Active(GraphOf(d), "task", r) {
      SampleActive(r);
    }
    assert DataBindings.Safe(GraphOf(d), DomainsOf(d), DataBindings.Ref("task", "start"));
    assert DataBindings.Safe(GraphOf(d), DomainsOf(d), DataBindings.Ref("end", "task"));
  }

  // ---------------------------------------------------------------- a run whose edges are left behind

  // The run of the sample while nothing was dispatched: the start is done, the end waits for the task.
  ghost predicate Waiting(c: Command, s: State) {
    && Fits(SAMPLE, s) && s.run.termination.None? && s.run.state.RunRunning? && s.run.command == c && s.attempts == map[]
    && s.nodes["start"].state.Succeeded? && "workflow_input" in s.nodes["start"].outputs
    && s.nodes["end"].state.Pending? && s.edges == [EdgeActive, EdgePending]
    && s.nodes["task"].kind.Task? && (s.nodes["task"].state.Pending? || s.nodes["task"].state.Ready?)
    && s.nodes["task"].nextSeq == 0 && s.nodes["task"].nextKind.Initial?
  }

  lemma SampleEdges()
    ensures |SAMPLE.edges| == 2 && SAMPLE.edges[0].source == "start" && SAMPLE.edges[0].target == "task"
    ensures SAMPLE.edges[1].source == "task" && SAMPLE.edges[1].target == "end" && SAMPLE.edges[0].activation.Always?
    ensures SAMPLE.nodes.Keys == {"start", "task", "end"} && SAMPLE.nodes["task"] == TASK_DEF && SAMPLE.entry == "start"
  {
  }

  lemma WaitingVisit(c: Command, s: State, n: Id, at: Time)
    requires Waiting(c, s) && n in s.nodes
    ensures var v := Visit(SAMPLE, s, n, at);
            (v.Idle? || v.Moved?) && Waiting(c, v.s) && (n == "task" || s.nodes["task"].state.Ready? ==> v.s.nodes["task"].state.Ready?)
  {
    SampleEdges();
    if n == "end" {
      assert !AllIncomingSettled(SAMPLE, s, n);
    } else if n == "task" && s.nodes[n].state.Pending? {
      WaitingFire(c, s, at);
    }
  }

  lemma WaitingFire(c: Command, s: State, at: Time)
    requires Waiting(c, s) && s.nodes["task"].state.Pending?
    ensures var v := Visit(SAMPLE, s, "task", at); v.Moved? && Waiting(c, v.s) && v.s.nodes["task"].state.Ready?
  {
    SampleEdges();
    assert s.edges[0].EdgeActive?;
    assert AllIncomingSettled(SAMPLE, s, "task") && AnyIncomingActive(SAMPLE, s, "task");
    var t := SetNode(s, "task", s.nodes["task"].Activate().value);
    assert forall k :: k in TASK_DEF.inputs ==> k == "in";
    assert Bind(t, TASK_DEF.inputs["in"]).Has?;
    assert ResolveInputs(t, TASK_DEF).Resolved?;
  }

  lemma {:induction false} WaitingPass(c: Command, s: State, ids: seq<Id>, i: nat, at: Time)
    requires Waiting(c, s) && i <= |ids| && forall k :: 0 <= k < |ids| ==> ids[k] in SAMPLE.nodes
    ensures var p := Pass(SAMPLE, s, ids, i, at);
            && (p.Idle? || p.Moved?) && Waiting(c, p.s)
            && ("task" in ids[i..] || s.nodes["task"].state.Ready? ==> p.s.nodes["task"].state.Ready?)
    decreases |ids| - i
  {
    if i < |ids| {
      WaitingVisit(c, s, ids[i], at);
      hide Visit, Waiting;
      VisitFits(SAMPLE, s, ids[i], at);
      assert ids[i..] == [ids[i]] + ids[i + 1..];
      WaitingPass(c, Visit(SAMPLE, s, ids[i], at).s, ids, i + 1, at);
    }
  }

  lemma {:induction false} WaitingDrive(c: Command, s: State, at: Time)
    requires Waiting(c, s)
    ensures var r := Drive(SAMPLE, s, at); r.Ok? && Waiting(c, r.value) && r.value.nodes["task"].state.Ready?
    decreases Pendings(s)
  {
    hide Pass;
    var ids := Listing(SAMPLE.nodes.Keys);
    ListingInside(SAMPLE);
    PassFits(SAMPLE, s, ids, 0, at);
    WaitingPass(c, s, ids, 0, at);
    SampleEdges();
    assert "task" in Elements(ids) && ids[0..] == ids;
    var p := Pass(SAMPLE, s, ids, 0, at);
    if p.Moved? { WaitingDrive(c, p.s, at); }
  }

  lemma SampleStarts(c: Command)
    requires ValidCommand(c)
    ensures New(SAMPLE, c).Ok? && Waiting(c, New(SAMPLE, c).value) && New(SAMPLE, c).value.nodes["task"].state.Ready?
  {
    SampleValid();
    hide ValidDoc, Drive;
    SampleSeeded(c);
    WaitingDrive(c, Seeded(SAMPLE, c).value, 0);
  }

  lemma SampleSeeded(c: Command)
    requires ValidCommand(c)
    ensures Seeded(SAMPLE, c).Ok? && Waiting(c, Seeded(SAMPLE, c).value)
  {
    SampleEdges();
    TwoElements(SAMPLE.nodes.Keys, "start", "end");
  }

  // A task that fails for good leaves its edge pending in the live engine, and the restored engine has it
  // inactive: so it is in every run of the sample in which the only attempt of the task fails.
  lemma EdgesDifferInSample(c: Command, a: Id, r: AttemptResult, at: Time) returns (ops: seq<Op>, states: seq<State>)
    requires ValidCommand(c) && a != "" && r.state.AttemptFailed? && r.code != "" && at >= c.createdAt
    ensures ops == [Queue("task", a), Start(a), Record(a, r), Completed(a, at)] && IsRun(SAMPLE, c, ops, states)
    ensures states[4].edges == [EdgeActive, EdgePending] && Rebuilt(SAMPLE, states[4].nodes) == [EdgeActive, EdgeInactive]
  {
    hide Drive, ValidDoc;
    SampleStarts(c);
    ops := [Queue("task", a), Start(a), Record(a, r), Completed(a, at)];
    states := RunExists(SAMPLE, c, ops);
    SampleFails(c, a, r, at, ops, states);
  }

  lemma SampleFails(c: Command, a: Id, r: AttemptResult, at: Time, ops: seq<Op>, states: seq<State>)
    requires ValidCommand(c) && a != "" && r.state.AttemptFailed? && r.code != "" && at >= c.createdAt
    requires ops == [Queue("task", a), Start(a), Record(a, r), Completed(a, at)] && IsRun(SAMPLE, c, ops, states)
    requires Waiting(c, states[0]) && states[0].nodes["task"].state.Ready?
    ensures states[4].edges == [EdgeActive, EdgePending] && Rebuilt(SAMPLE, states[4].nodes) == [EdgeActive, EdgeInactive]
  {
    hide Inv, New, Waiting, FailedOnce, Apply, Lagging, Behind, KeepsSettled;
    assert Follows(SAMPLE, states[0], ops[0], states[1]) && Follows(SAMPLE, states[1], ops[1], states[2]);
    assert Follows(SAMPLE, states[2], ops[2], states[3]) && Follows(SAMPLE, states[3], ops[3], states[4]);
    SampleQueued(c, states[0], a);
    SampleStarted(c, states[1], a);
    SampleRecorded(c, states[2], a, r);
    InvAlways(SAMPLE, c, ops, states, 3);
    SampleCompleted(c, states[3], a, at);
    LaggingAlways(SAMPLE, c, ops, states, 4);
    SampleRebuilt(states[4]);
  }

  // The task runs its only attempt, which has failed.
  ghost predicate FailedOnce(c: Command, s: State, a: Id) {
    && Fits(SAMPLE, s) && s.run.termination.None? && s.run.command == c && s.edges == [EdgeActive, EdgePending]
    && s.nodes["start"].state.Succeeded? && Open(s, a) && s.attempts[a].node == "task"
    && s.attempts[a].result.Some? && s.attempts[a].result.value.state.AttemptFailed?
  }

  // Its attempt is queued, or runs.
  ghost predicate Attempting(c: Command, s: State, a: Id, runs: bool) {
    && Fits(SAMPLE, s) && s.run.termination.None? && s.run.command == c && s.edges == [EdgeActive, EdgePending]
    && s.nodes["start"].state.Succeeded? && a in s.attempts && s.attempts[a].node == "task" && s.attempts[a].result.None?
    && s.nodes["task"].current == a && s.nodes["task"].kind.Task?
    && (if runs then s.nodes["task"].state.Running? && s.attempts[a].state.AttemptRunning?
        else s.nodes["task"].state.Queued? && s.attempts[a].state.AttemptQueued?)
  }

  lemma SampleQueued(c: Command, s: State, a: Id)
    requires Waiting(c, s) && s.nodes["task"].state.Ready? && a != ""
    ensures Attempting(c, Apply(SAMPLE, s, Queue("task", a)), a, false)
  {
    SampleEdges();
    assert QueueNode(s, "task", a).Ok?;
  }

  lemma SampleStarted(c: Command, s: State, a: Id)
    requires Attempting(c, s, a, false)
    ensures Attempting(c, Apply(SAMPLE, s, Start(a)), a, true)
  {
    SampleEdges();
  }

  lemma SampleRecorded(c: Command, s: State, a: Id, r: AttemptResult)
    requires Attempting(c, s, a, true) && r.state.AttemptFailed? && r.code != ""
    ensures FailedOnce(c, Apply(SAMPLE, s, Record(a, r)), a)
  {
    SampleEdges();
  }

  lemma SampleCompleted(c: Command, s: State, a: Id, at: Time)
    requires Inv(SAMPLE, s) && FailedOnce(c, s, a) && at >= c.createdAt && ValidCommand(c)
    ensures var t := Apply(SAMPLE, s, Completed(a, at));
            Fits(SAMPLE, t) && Behind(SAMPLE, t, 1) && "start" in t.nodes && t.nodes["start"].state.Succeeded?
  {
    hide Inv, HandleCompleted;
    SampleEdges();
    FailureLeavesEdgesBehind(SAMPLE, s, a, at, 1);
    SettledIsFinal(SAMPLE, s, Completed(a, at));
  }

  lemma SampleRebuilt(t: State)
    requires Lagging(SAMPLE, t) && Fits(SAMPLE, t) && Behind(SAMPLE, t, 1)
    requires "start" in t.nodes && t.nodes["start"].state.Succeeded?
    ensures t.edges == [EdgeActive, EdgePending] && Rebuilt(SAMPLE, t.nodes) == [EdgeActive, EdgeInactive]
  {
    SampleEdges();
    EdgesDifferExactly(SAMPLE, t);
  }

  // ---------------------------------------------------------------- a definition with a branch

  const FORK_DEF := NodeDef(BranchOp([B.Case("yes", [], B.HasKey, Str("k"))], "no"), map["value" := FromOutput(TObject, "start", "workflow_input")], map[], NO_POLICY)
  const LEFT_DEF := NodeDef(TaskOp, map["in" := FromOutput(TObject, "start", "workflow_input")], map["out" := TObject], Policy(1, 0, 1, []))
  const THEN_DEF := NodeDef(TaskOp, map["in" := FromOutput(TObject, "left", "out")], map["out" := TObject], Policy(1, 0, 1, []))
  const RIGHT_DEF := NodeDef(TaskOp, map[], map["out" := TObject], Policy(1, 0, 1, []))
  const LAST_DEF := NodeDef(EndOp, map["workflow_output" := FromOutput(TObject, "start", "workflow_input")], map[], NO_POLICY)

  // The left way has two tasks, the second of which reads the first; the right way has one.
  const FORKED := Doc("start", "end",
                      map["start" := START_DEF, "fork" := FORK_DEF, "left" := LEFT_DEF, "then" := THEN_DEF, "right" := RIGHT_DEF, "end" := LAST_DEF],
                      [Link("1", "start", "fork", Always), Link("2", "fork", "left", OnRoute("yes")), Link("3", "fork", "right", OnRoute("no")),
                       Link("4", "left", "then", Always), Link("5", "then", "end", Always), Link("6", "right", "end", Always)])

  lemma ForkedEdges()
    ensures var g := GraphOf(FORKED);
            && |g.edges| == 6 && g.start == "start" && g.branches == {"fork"} && g.nodes == {"start", "fork", "left", "then", "right", "end"}
            && g.edges[0] == Edge("1", "start", "fork", "") && g.edges[1] == Edge("2", "fork", "left", "yes") && g.edges[2] == Edge("3", "fork", "right", "no")
            && g.edges[3] == Edge("4", "left", "then", "") && g.edges[4] == Edge("5", "then", "end", "") && g.edges[5] == Edge("6", "right", "end", "")
  {
  }

  lemma ForkedOrder()
    ensures IsTopological(GraphOf(FORKED), ["start", "fork", "left", "then", "right", "end"])
  {
    ForkedEdges();
    var order := ["start", "fork", "left", "then", "right", "end"];
    hide GraphOf;
    assert Elements(order) == {"start", "fork", "left", "then", "right", "end"} by {
      assert forall i :: 0 <= i < 6 ==> order[i] in order;
      assert order[0] in order && order[1] in order && order[2] in order && order[3] in order && order[4] in order && order[5] in order;
    }
  }

  lemma ForkedActive(r: Routing)
    ensures var g := GraphOf(FORKED);
            && Active(g, "start", r) && Active(g, "fork", r) && (Active(g, "left", r) <==> r("fork") == "yes")
            && (Active(g, "then", r) <==> Active(g, "left", r)) && (r("fork") == "no" ==> Active(g, "end", r))
  {
    ForkedEdges();
    var g := GraphOf(FORKED);
    hide GraphOf, Active;
    StartIsActive(g, r);
    assert g.edges[0] in g.edges && g.edges[1] in g.edges && g.edges[2] in g.edges && g.edges[3] in g.edges && g.edges[5] in g.edges;
    ActiveStep(g, "fork", r);
    ActiveStep(g, "left", r);
    ActiveStep(g, "then", r);
    if r("fork") == "no" {
      ActiveStep(g, "right", r);
      ActiveStep(g, "end", r);
    }
  }

  lemma ForkedReaches()
    ensures var g := GraphOf(FORKED);
            Reaches(g, "start", "fork") && Reaches(g, "start", "left") && Reaches(g, "left", "then") && Reaches(g, "start", "end")
  {
    ForkedEdges();
    var g := GraphOf(FORKED);
    hide GraphOf;
    assert HasEdge(g, "start", "fork") && HasEdge(g, "fork", "left") && HasEdge(g, "fork", "right") && HasEdge(g, "left", "then") && HasEdge(g, "right", "end");
    hide HasEdge;
    assert PathFromTo(g, ["start", "fork"], "start", "fork") && PathFromTo(g, ["start", "fork", "left"], "start", "left");
    assert PathFromTo(g, ["left", "then"], "left", "then") && PathFromTo(g, ["start", "fork", "right", "end"], "start", "end");
  }

  lemma ForkedLinks()
    ensures ValidEdges(FORKED)
    ensures forall n :: n in {"fork", "left", "then", "right", "end"} ==> HasIncoming(FORKED, n)
    ensures forall n :: n in {"start", "fork", "left", "then", "right"} ==> HasOutgoing(FORKED, n)
    ensures HasRouteEdge(FORKED, "fork", "yes") && HasRouteEdge(FORKED, "fork", "no")
  {
    var e := FORKED.edges;
    assert e[0].target == "fork" && e[1].target == "left" && e[3].target == "then" && e[2].target == "right" && e[4].target == "end";
    assert e[0].source == "start" && e[1].source == "fork" && e[3].source == "left" && e[4].source == "then" && e[5].source == "right";
    assert e[1].activation == OnRoute("yes") && e[2].activation == OnRoute("no") && e[2].source == "fork";
    assert RoutesOf(FORK_DEF.op) == ["no", "yes"];
  }

  lemma ForkedControls()
    ensures ValidNode(FORKED, "start") && ValidNode(FORKED, "fork") && ValidNode(FORKED, "end")
  {
    ForkedLinks();
    hide HasIncoming, HasOutgoing, HasRouteEdge, ValidEdges;
    assert RoutesOf(FORK_DEF.op) == ["no", "yes"];
  }

  lemma ForkedTasks()
    ensures ValidNode(FORKED, "left") && ValidNode(FORKED, "then") && ValidNode(FORKED, "right")
  {
    ForkedLinks();
    hide HasIncoming, HasOutgoing, HasRouteEdge, ValidEdges;
  }

  lemma ForkedValid()
    ensures ValidDoc(FORKED)
  {
    ForkedControls();
    ForkedTasks();
    ForkedLinks();
    ForkedOrder();
    hide IsTopological, ValidNode, ValidEdges, HasIncoming, HasOutgoing, GraphOf;
  }

  lemma ForkedSafe(target: Id, source: Id)
    requires (source == "start" && target in {"fork", "left", "end"}) || (source == "left" && target == "then")
    ensures DataBindings.Safe(GraphOf(FORKED), DomainsOf(FORKED), DataBindings.Ref(target, source))
  {
    ForkedReaches();
    ForkedEdges();
    hide Reaches, Active, GraphOf, DomainsOf;
    forall r: Routing | Active(GraphOf(FORKED), target, r) ensures Active(GraphOf(FORKED), source, r) {
      ForkedActive(r);
    }
  }

  lemma ForkedAccepted()
    ensures Accepted(FORKED)
  {
    ForkedValid();
    hide ValidDoc, DataBindings.Safe, GraphOf, DomainsOf;
    ForkedSafe("fork", "start");
    ForkedSafe("left", "start");
    ForkedSafe("then", "left");
    ForkedSafe("end", "start");
  }

  // The end may not read the left task: the right way activates it without.
  lemma ForkedUnsafe()
    ensures !DataBindings.Safe(GraphOf(FORKED), DomainsOf(FORKED), DataBindings.Ref("end", "left"))
  {
    var r: Routing := (b: Id) => "no";
    ForkedActive(r);
    ForkedEdges();
    assert DomainsOf(FORKED)["fork"] == ["no", "yes"];
    hide GraphOf, Active;
    assert DataBindings.Legal(GraphOf(FORKED), DomainsOf(FORKED), r);
  }
}
