/**
 Runs of definitions whose references passed the static check: no node ever fails for want of an
 input, and no run gets stuck.
 */
module EngineProgress {
  import opened Ids
  import opened Json
  import opened Runtime
  import opened Graphs
  import opened Workflow
  import opened EngineSpec
  import opened EngineInvariants
  import opened EngineDrive
  import opened EngineSafety
  import opened EngineFlow

  // A pending node waits for a predecessor; only the end node also waits for everything else.
  ghost predicate QuietAt(d: Doc, s: State, n: Id)
    requires Fits(d, s)
  {
    n in s.nodes && n != d.entry && s.nodes[n].state.Pending? && AllIncomingSettled(d, s, n) ==>
      n == d.exit && !OthersTerminal(s, d.exit)
  }

  ghost predicate Quiet(d: Doc, s: State)
    requires Fits(d, s)
  {
    forall n :: n in s.nodes ==> QuietAt(d, s, n)
  }

  // No node ever failed because an input binding did not resolve.
  ghost predicate InputsBound(s: State) {
    forall n :: n in s.nodes ==> BoundRecord(s.nodes[n])
  }

  ghost predicate BoundRecord(node: NodeRun) {
    node.failure.Some? ==> node.failure.value.phase != "input_binding"
  }

  ghost predicate Calm(d: Doc, s: State) {
    Fits(d, s) && InputsBound(s) && (s.run.termination.None? ==> Quiet(d, s))
  }

  // The definition was accepted by the contract and by the static check of references.
  ghost predicate Accepted(d: Doc) {
    ValidDoc(d) && SafeBindings(d)
  }

  // ---------------------------------------------------------------- visits and passes

  lemma FireIdle(d: Doc, s: State, n: Id, at: Time)
    requires Fits(d, s) && n in s.nodes && Accepted(d) && Firing(d, s, n) && GoodTime(s, at)
    ensures var r := Fire(d, s, n, at);
            && (r.Idle? ==> n == d.exit && !OthersTerminal(s, n))
            && (!r.Broken? && BoundRecord(s.nodes[n]) ==> n in r.s.nodes && BoundRecord(r.s.nodes[n]))
  {
    hide Accepted, Firing, GoodTime, ValidNode, NodeFlow, ResolveInputs;
    FiringNode(d, s, n);
    EndIsExit(d, s, n);
    AcceptedSplit(d);
    InputsAlwaysResolve(d, s, n);
    FireShape(d, s, n, at);
  }

  lemma AcceptedSplit(d: Doc)
    requires Accepted(d)
    ensures ValidDoc(d) && SafeBindings(d)
  {
    hide ValidDoc, SafeBindings;
  }

  lemma EndIsExit(d: Doc, s: State, n: Id)
    requires Firing(d, s, n) && n in d.nodes
    ensures d.nodes[n].op.EndOp? ==> n == d.exit
    ensures !d.nodes[n].op.StartOp?
  {
    hide Driving;
  }

  // An idle visit leaves the node quiet.
  lemma VisitQuiet(d: Doc, s: State, n: Id, at: Time)
    requires Accepted(d) && Driving(d, s) && Fits(d, s) && n in s.nodes && ValidNode(d, n) && GoodTime(s, at) && InputsBound(s)
    ensures var r := Visit(d, s, n, at);
            !r.Broken? && Fits(d, r.s) && InputsBound(r.s) && (r.Idle? ==> QuietAt(d, r.s, n))
  {
    hide Accepted, Driving, Fire, ValidNode, Placed, NodeOk, NodeFlow, BoundRecord;
    VisitFits(d, s, n, at);
    VisitShape(d, s, n, at);
    VisitKeeps(d, s, n, at);
    if s.nodes[n].state.Pending? && n != d.entry && AllIncomingSettled(d, s, n) {
      DrivingFacts(d, s, n);
      if !AnyIncomingActive(d, s, n) {
        SkipBound(s.nodes[n]);
        SkipKeeps(d, s, n);
      } else {
        ActivateKeeps(d, s, n);
        var t := SetNode(s, n, s.nodes[n].Activate().value);
        ActivateBound(s.nodes[n]);
        FireIdle(d, t, n, at);
        FireShape(d, t, n, at);
      }
    }
    var r := Visit(d, s, n, at);
    forall m | m in r.s.nodes ensures BoundRecord(r.s.nodes[m]) {
      if m != n { assert r.s.nodes[m] == s.nodes[m]; }
    }
  }

  lemma SkipBound(node: NodeRun)
    requires BoundRecord(node) && node.Skip().Ok?
    ensures BoundRecord(node.Skip().value)
  {
  }

  lemma ActivateBound(node: NodeRun)
    requires BoundRecord(node) && node.Activate().Ok?
    ensures BoundRecord(node.Activate().value)
  {
  }

  // The same states and edges, though a waiting node may have been activated.
  ghost predicate SameStates(s: State, t: State) {
    && t.nodes.Keys == s.nodes.Keys && t.edges == s.edges && t.run == s.run
    && forall n :: n in s.nodes ==> t.nodes[n].state == s.nodes[n].state
  }

  lemma QuietSame(d: Doc, s: State, t: State, n: Id)
    requires Fits(d, s) && Fits(d, t) && SameStates(s, t) && QuietAt(d, s, n)
    ensures QuietAt(d, t, n)
  {
  }

  // After a pass in which nothing moved, every node is quiet.
  lemma {:induction false} PassQuiet(d: Doc, s: State, ids: seq<Id>, i: nat, at: Time)
    requires Accepted(d) && Driving(d, s) && Fits(d, s) && ValidIds(d, ids) && i <= |ids| && GoodTime(s, at) && InputsBound(s)
    ensures var r := Pass(d, s, ids, i, at);
            && !r.Broken? && Fits(d, r.s) && InputsBound(r.s)
            && (r.Idle? ==> SameStates(s, r.s) && forall k :: i <= k < |ids| ==> QuietAt(d, r.s, ids[k]))
    decreases |ids| - i
  {
    hide Accepted, Driving, Falling, Visit, ValidNode, InputsBound, QuietAt, AllIncomingSettled, AnyIncomingActive;
    if i < |ids| {
      VisitKeeps(d, s, ids[i], at);
      VisitQuiet(d, s, ids[i], at);
      VisitCommand(d, s, ids[i], at);
      VisitShape(d, s, ids[i], at);
      var v := Visit(d, s, ids[i], at);
      if v.Idle? || v.Moved? {
        PassQuiet(d, v.s, ids, i + 1, at);
        var r := Pass(d, v.s, ids, i + 1, at);
        if v.Idle? && r.Idle? {
          QuietSame(d, v.s, r.s, ids[i]);
        }
      }
    }
  }

  lemma QuietEverywhere(d: Doc, s: State, ids: seq<Id>)
    requires Fits(d, s) && Elements(ids) == d.nodes.Keys && forall k :: 0 <= k < |ids| ==> QuietAt(d, s, ids[k])
    ensures Quiet(d, s)
  {
    hide QuietAt;
    forall n | n in s.nodes ensures QuietAt(d, s, n) {
      assert n in Elements(ids);
      var k :| 0 <= k < |ids| && ids[k] == n;
    }
  }

  lemma {:induction false} SweepBound(d: Doc, s: State, ids: seq<Id>, i: nat, reason: string)
    requires Fits(d, s) && i <= |ids| && InputsBound(s) && forall k :: 0 <= k < |ids| ==> ids[k] in d.nodes
    ensures var r := Sweep(d, s, ids, i, reason); r.Ok? ==> InputsBound(r.value)
    decreases |ids| - i
  {
    hide Outstanding, SettledEdges;
    if i < |ids| {
      var n := ids[i];
      if s.nodes[n].state.Terminal() || Outstanding(s, n) {
        SweepBound(d, s, ids, i + 1, reason);
      } else if s.nodes[n].Cancel(reason).Ok? {
        SweepBound(d, Settle(d, SetNode(s, n, s.nodes[n].Cancel(reason).value), n, ""), ids, i + 1, reason);
      }
    }
  }

  lemma WindBound(d: Doc, s: State)
    requires Fits(d, s) && s.run.termination.Some? && InputsBound(s)
    ensures var r := Wind(d, s); r.Ok? ==> InputsBound(r.value)
  {
    ListingInside(d);
    SweepBound(d, s, Listing(d.nodes.Keys), 0, CancelReason(s.run.termination.value.kind));
  }

  lemma AllTerminalQuiet(d: Doc, s: State)
    requires Fits(d, s) && AllTerminal(s)
    ensures Quiet(d, s)
  {
  }

  // Driving ends in a calm state.
  lemma {:induction false} DriveCalm(d: Doc, s: State, at: Time)
    requires Accepted(d) && (Driving(d, s) || Falling(d, s)) && Fits(d, s) && GoodTime(s, at) && InputsBound(s)
    ensures var r := Drive(d, s, at); r.Ok? && Calm(d, r.value)
    decreases Pendings(s)
  {
    hide Accepted, Driving, Falling, Pass, Wind, InputsBound, Quiet, ValidIds, Inv, QuietAt, Wound, Core;
    AcceptedSplit(d);
    DocFacts(d);
    if Falling(d, s) {
      FallingFacts(d, s);
      WindKeeps(d, s);
      WindBound(d, s);
      CoreFits(d, Wind(d, s).value);
    } else {
      var ids := Listing(d.nodes.Keys);
      DrivingFits(d, s);
      PassKeeps(d, s, ids, 0, at);
      PassQuiet(d, s, ids, 0, at);
      ListingInside(d);
      PassFits(d, s, ids, 0, at);
      var p := Pass(d, s, ids, 0, at);
      if p.Tripped? || (p.Moved? && !p.s.run.state.Terminal()) {
        DriveCalm(d, p.s, at);
      } else if p.Moved? {
        DrivingOver(d, p.s);
        AllTerminalQuiet(d, p.s);
      } else {
        QuietEverywhere(d, p.s, ids);
      }
    }
  }

  lemma DrivingOver(d: Doc, s: State)
    requires Driving(d, s) && s.run.state.Terminal()
    ensures AllTerminal(s)
  {
    hide Core, Flow;
  }

  // ---------------------------------------------------------------- operations

  // A node that moves between open states disturbs no one.
  lemma OpenCalm(d: Doc, s: State, t: State, n: Id)
    requires Calm(d, s) && n in s.nodes && n in t.nodes && t.nodes == s.nodes[n := t.nodes[n]]
    requires t.edges == s.edges && t.run.termination == s.run.termination
    requires t.nodes[n] == s.nodes[n] ||
             (!s.nodes[n].state.Terminal() && !s.nodes[n].state.Pending? && !t.nodes[n].state.Terminal() && !t.nodes[n].state.Pending?)
    requires t.nodes[n].failure == s.nodes[n].failure
    ensures Calm(d, t)
  {
    forall m | m in t.nodes ensures BoundRecord(t.nodes[m]) {
      assert BoundRecord(s.nodes[m]);
    }
    if s.run.termination.None? {
      assert OthersTerminal(t, d.exit) <==> OthersTerminal(s, d.exit) by {
        forall m | m in s.nodes ensures t.nodes[m].state.Terminal() == s.nodes[m].state.Terminal() {}
      }
      forall m | m in t.nodes ensures QuietAt(d, t, m) {
        assert QuietAt(d, s, m);
      }
    }
  }

  lemma QueueCalm(d: Doc, s: State, n: Id, a: Id)
    requires Calm(d, s) && QueueNode(s, n, a).Ok?
    ensures Calm(d, QueueNode(s, n, a).value)
  {
    hide Calm;
    OpenCalm(d, s, QueueNode(s, n, a).value, n);
  }

  lemma StartCalm(d: Doc, s: State, a: Id)
    requires Calm(d, s) && StartAttempt(s, a).Ok?
    ensures Calm(d, StartAttempt(s, a).value)
  {
    hide Calm;
    if !s.attempts[a].state.AttemptRunning? {
      StartShape(s, a);
      OpenCalm(d, s, StartAttempt(s, a).value, s.attempts[a].node);
    }
  }

  lemma StartShape(s: State, a: Id)
    requires StartAttempt(s, a).Ok? && !s.attempts[a].state.AttemptRunning?
    ensures var n, t := s.attempts[a].node, StartAttempt(s, a).value;
            && n in s.nodes && n in t.nodes && t.nodes == s.nodes[n := t.nodes[n]] && t.edges == s.edges && t.run == s.run
            && s.nodes[n].state.Queued? && t.nodes[n].state.Running? && t.nodes[n].failure == s.nodes[n].failure
  {
  }

  lemma RecordCalm(d: Doc, s: State, a: Id, r: AttemptResult)
    requires Calm(d, s) && RecordResult(s, a, r).Ok?
    ensures Calm(d, RecordResult(s, a, r).value.0)
  {
    hide Calm;
    var n := s.attempts[a].node;
    var t := RecordResult(s, a, r).value.0;
    assert t.nodes == s.nodes[n := t.nodes[n]];
    OpenCalm(d, s, t, n);
  }

  lemma ConcludeBound(d: Doc, s: State, n: Id, a: Id, r: AttemptResult, at: Time)
    requires Fits(d, s) && n in s.nodes && InputsBound(s)
    ensures Conclude(d, s, n, a, r, at).Ok? ==> InputsBound(Conclude(d, s, n, a, r, at).value)
    ensures s.run.termination.Some? && ConcludeWinding(d, s, n, a, r).Ok? ==> InputsBound(ConcludeWinding(d, s, n, a, r).value)
  {
    hide ValidOutputs, SettledEdges;
  }

  lemma HandleCalm(d: Doc, s: State, a: Id, at: Time)
    requires Accepted(d) && Inv(d, s) && Calm(d, s) && Fits(d, s) && HandleCompleted(d, s, a, at).Ok?
    ensures Calm(d, HandleCompleted(d, s, a, at).value)
  {
    hide Inv, Accepted, ValidDoc, Calm, Driving, Falling, Wound, Core, NodeOk, Concluding, Conclude, ConcludeWinding, Drive, OpenIn, RetryAs, InputsBound;
    InvFacts(d, s);
    ConcludingFacts(d, s, a);
    CalmBound(d, s);
    var n, r := s.attempts[a].node, s.attempts[a].result.value;
    var node := s.nodes[n];
    if node.current != a || node.state.Terminal() || node.state.RetryWait? || node.state.Ready? {
    } else if s.run.termination.Some? {
      StillRunning(d, s, n);
      ConcludeWindingKeeps(d, s, a);
      ConcludeFits(d, s, n, a, r, at);
      ConcludeBound(d, s, n, a, r, at);
      DriveCalm(d, ConcludeWinding(d, s, n, a, r).value, at);
    } else {
      OpenFromInv(d, s, a);
      ConcludingIsCurrent(d.nodes[n], n, node, s.attempts, a);
      if RetryAs(d.nodes[n], node, r).Some? {
        OpenCalm(d, s, HandleCompleted(d, s, a, at).value, n);
      } else {
        ConcludeKeeps(d, s, a, at);
        ConcludeFits(d, s, n, a, r, at);
        ConcludeBound(d, s, n, a, r, at);
        DriveCalm(d, Conclude(d, s, n, a, r, at).value, at);
      }
    }
  }

  lemma CalmBound(d: Doc, s: State)
    requires Calm(d, s)
    ensures InputsBound(s) && Fits(d, s)
  {
  }

  lemma RetryDueCalm(d: Doc, s: State, n: Id, at: Time)
    requires Inv(d, s) && Calm(d, s) && Fits(d, s) && RetryDue(d, s, n, at).Ok?
    ensures Calm(d, RetryDue(d, s, n, at).value)
  {
    hide Inv, Calm, InputsBound, Wind, Falling, Core;
    CalmBound(d, s);
    if s.run.termination.Some? {
      WindBound(d, s);
      RetryDueKeeps(d, s, n, at);
      InvFits(d, Wind(d, s).value);
      CalmWound(d, Wind(d, s).value);
    } else if s.nodes[n].state.RetryWait? {
      OpenCalm(d, s, RetryDue(d, s, n, at).value, n);
    }
  }

  lemma CalmWound(d: Doc, s: State)
    requires Fits(d, s) && InputsBound(s) && s.run.termination.Some?
    ensures Calm(d, s)
  {
  }

  lemma RequestStopCalm(d: Doc, s: State, intent: Intent)
    requires Accepted(d) && Inv(d, s) && Calm(d, s) && Fits(d, s) && intent.cause.code != "" && RequestStop(d, s, intent).Ok?
    ensures Calm(d, RequestStop(d, s, intent).value.0)
  {
    hide Inv, Accepted, Calm, InputsBound, Drive, Falling;
    CalmBound(d, s);
    if !s.run.state.Terminal() {
      var t := s.(run := s.run.RequestTermination(intent).value.0);
      RequestedIsFalling(d, s, intent);
      SameBound(s, t);
      DriveCalm(d, t, intent.requestedAt);
    }
  }

  lemma SameBound(s: State, t: State)
    requires InputsBound(s) && t.nodes == s.nodes
    ensures InputsBound(t)
  {
  }

  lemma NewCalm(d: Doc, c: Command)
    requires Accepted(d) && New(d, c).Ok?
    ensures Calm(d, New(d, c).value)
  {
    hide Accepted, ValidDoc, Driving, Inv, Drive, Seeded, ValidCommand;
    AcceptedSplit(d);
    NewKeeps(d, c);
    SeededKeeps(d, c);
    DocNames(d);
    SeededShape(d, c);
    SeededBound(d, c);
    DriveCalm(d, Seeded(d, c).value, 0);
  }

  lemma SeededBound(d: Doc, c: Command)
    requires ValidCommand(c) && "" !in d.nodes && |d.nodes.Keys| >= 2 && d.entry in d.nodes && d.nodes[d.entry].op.StartOp?
    ensures Seeded(d, c).Ok? && InputsBound(Seeded(d, c).value)
  {
    hide Seeded;
    SeededShape(d, c);
  }

  lemma ApplyCalm(d: Doc, s: State, op: Op)
    requires Accepted(d) && Inv(d, s) && Calm(d, s)
    ensures Fits(d, s) && Calm(d, Apply(d, s, op))
  {
    hide Accepted, Inv, Calm, QueueNode, StartAttempt, RecordResult, HandleCompleted, RetryDue, RequestStop;
    InvFits(d, s);
    match op
    case Queue(n, a) => if QueueNode(s, n, a).Ok? { QueueCalm(d, s, n, a); }
    case Start(a) => if StartAttempt(s, a).Ok? { StartCalm(d, s, a); }
    case Record(a, r) => if RecordResult(s, a, r).Ok? { RecordCalm(d, s, a, r); }
    case Completed(a, at) => if HandleCompleted(d, s, a, at).Ok? { HandleCalm(d, s, a, at); }
    case Due(n, at) => if RetryDue(d, s, n, at).Ok? { RetryDueCalm(d, s, n, at); }
    case Cancel(at) =>
      var intent := Intent(CanceledKind, at, Failure(RUN_CANCELED, "run_control", "", "", ""));
      if RequestStop(d, s, intent).Ok? { RequestStopCalm(d, s, intent); }
    case Deadline(at) =>
      var intent := Intent(TimedOutKind, at, Failure(RUN_TIMED_OUT, "run_deadline", "", "", ""));
      if RequestStop(d, s, intent).Ok? { RequestStopCalm(d, s, intent); }
  }

  // In every run of an accepted definition no node fails for want of an input, and between
  // operations every pending node waits for an unsettled predecessor.
  lemma {:induction false} CalmAlways(d: Doc, c: Command, ops: seq<Op>, states: seq<State>, i: nat)
    requires Accepted(d) && IsRun(d, c, ops, states) && i < |states|
    ensures Inv(d, states[i]) && Calm(d, states[i])
  {
    hide Accepted, Inv, Calm, Apply, New;
    InvAlways(d, c, ops, states, i);
    if i == 0 {
      NewCalm(d, c);
    } else {
      CalmAlways(d, c, ops, states, i - 1);
      assert Follows(d, states[i - 1], ops[i - 1], states[i]);
      ApplyCalm(d, states[i - 1], ops[i - 1]);
    }
  }

  // ---------------------------------------------------------------- progress

  // Every succeeded node but the end hands control on.
  lemma SucceededHandsOn(d: Doc, s: State, n: Id) returns (i: nat)
    requires Steady(d, s) && Fits(d, s) && n in s.nodes && n != d.exit && s.nodes[n].state.Succeeded?
    ensures i < |d.edges| && d.edges[i].source == n && s.edges[i].EdgeActive?
  {
    hide Driving, Placed;
    assert ValidNode(d, n);
    SteadyNode(d, s, n);
    if d.nodes[n].op.BranchOp? {
      assert HasRouteEdge(d, n, s.nodes[n].route);
      i :| 0 <= i < |d.edges| && d.edges[i].source == n && d.edges[i].activation == OnRoute(s.nodes[n].route);
    } else {
      assert HasOutgoing(d, n);
      i :| 0 <= i < |d.edges| && d.edges[i].source == n;
    }
    SteadyEdge(d, s, i);
    EdgeKinds(d, s, i);
  }

  // If the end node is settled, so is everything.
  lemma EndIsLastToSettle(d: Doc, s: State, order: seq<Id>)
    requires Steady(d, s) && Fits(d, s) && IsTopological(GraphOf(d), order) && d.exit in s.nodes && s.nodes[d.exit].state.Terminal()
    ensures AllTerminal(s)
  {
    hide Steady, ValidDoc, Placed, NodeFlow, IsTopological;
    var open := set n | n in s.nodes && !s.nodes[n].state.Terminal();
    if open != {} {
      var x :| x in open;
      InOrder(d, order, x);
      var k := LastIn(order, open);
      var i := OutgoingEdge(d, s, order[k]);
      var j, l := ForwardOf(d, s, order, k, i);
      SteadyEdge(d, s, i);
      assert order[l] !in open;
      PlacedSettled(d, s, order[l]);
      assert false;
    }
    forall n | n in s.nodes ensures s.nodes[n].state.Terminal() {
      assert n !in open;
    }
  }

  lemma OutgoingEdge(d: Doc, s: State, n: Id) returns (i: nat)
    requires Steady(d, s) && n in d.nodes && n != d.exit
    ensures i < |d.edges| && d.edges[i].source == n
  {
    hide Driving;
    assert ValidNode(d, n) && HasOutgoing(d, n);
    i :| 0 <= i < |d.edges| && d.edges[i].source == n;
  }

  lemma ForwardOf(d: Doc, s: State, order: seq<Id>, k: nat, i: nat) returns (j: nat, l: nat)
    requires Steady(d, s) && IsTopological(GraphOf(d), order) && k < |order| && i < |d.edges| && d.edges[i].source == order[k]
    ensures k < l < |order| && order[l] == d.edges[i].target
  {
    hide ValidDoc, Driving;
    j, l := EdgeForward(d, order, i);
    SamePosition(order, j, k);
  }

  // The end node is never skipped: the last succeeded node would hand control to a later one.
  lemma EndNeverSkipped(d: Doc, s: State)
    requires Steady(d, s)
    ensures d.exit in s.nodes && !s.nodes[d.exit].state.Skipped?
  {
    hide Steady, ValidDoc, Placed, NodeFlow, IsTopological;
    SteadyFits(d, s);
    if s.nodes[d.exit].state.Skipped? {
      var order := DocOrder(d, s);
      EndIsLastToSettle(d, s, order);
      var good := set n | n in s.nodes && s.nodes[n].state.Succeeded?;
      SteadyNode(d, s, d.entry);
      assert d.entry in good;
      InOrder(d, order, d.entry);
      var k := LastIn(order, good);
      InOrder(d, order, order[k]);
      var i := SucceededHandsOn(d, s, order[k]);
      var j, l := ForwardOf(d, s, order, k, i);
      SteadyEdge(d, s, i);
      assert order[l] !in good;
      SteadyNode(d, s, order[l]);
      PlacedSettled(d, s, order[l]);
      assert false;
    }
  }

  // Some task is ready, queued, running or waiting to be retried.
  ghost predicate HasWork(s: State) {
    exists n :: n in s.nodes && (s.nodes[n].state.Ready? || s.nodes[n].state.Queued? || s.nodes[n].state.Running? || s.nodes[n].state.RetryWait?)
  }

  // Without work, a node whose predecessors are neither pending nor at work has all edges settled.
  lemma NoPendingBefore(d: Doc, s: State, order: seq<Id>, waiting: set<Id>, k: nat)
    requires Steady(d, s) && Fits(d, s) && IsTopological(GraphOf(d), order) && !HasWork(s) && k < |order|
    requires waiting == (set n | n in s.nodes && n != d.exit && s.nodes[n].state.Pending?)
    requires forall j :: 0 <= j < k ==> order[j] !in waiting
    ensures AllIncomingSettled(d, s, order[k])
  {
    hide Steady, Placed, NodeFlow, IsTopological;
    forall i | 0 <= i < |d.edges| && d.edges[i].target == order[k] ensures !s.edges[i].EdgePending? {
      SteadyEdge(d, s, i);
      var j := SourcePosition(d, s, order, k, i);
      SteadyNode(d, s, order[j]);
    }
  }

  // No run gets stuck: while it is neither over nor terminating, there is work to do.
  lemma NeverStuck(d: Doc, s: State)
    requires Steady(d, s) && s.run.state.RunRunning? && Fits(d, s) && Quiet(d, s)
    ensures HasWork(s)
  {
    hide Steady, ValidDoc, Placed, NodeFlow, IsTopological;
    if !HasWork(s) {
      SteadyFits(d, s);
      var order := DocOrder(d, s);
      var waiting := set n | n in s.nodes && n != d.exit && s.nodes[n].state.Pending?;
      EntryDone(d, s);
      if waiting != {} {
        var x :| x in waiting;
        InOrder(d, order, x);
        var k := FirstIn(order, waiting);
        assert QuietAt(d, s, order[k]);
        NoPendingBefore(d, s, order, waiting, k);
      } else {
        InOrder(d, order, d.exit);
        var k :| 0 <= k < |order| && order[k] == d.exit;
        EndNeverSkipped(d, s);
        SteadyNode(d, s, d.exit);
        forall n | n in s.nodes && n != d.exit ensures !s.nodes[n].state.Pending? {
          assert n !in waiting;
        }
        NothingElse(d, s);
        assert QuietAt(d, s, d.exit);
        NoPendingBefore(d, s, order, waiting, k);
      }
      assert false;
    }
  }

  // Without work and without waiting nodes, everything but the end is settled.
  lemma NothingElse(d: Doc, s: State)
    requires !HasWork(s) && forall n :: n in s.nodes && n != d.exit ==> !s.nodes[n].state.Pending?
    ensures OthersTerminal(s, d.exit)
  {
    forall n | n in s.nodes && n != d.exit ensures s.nodes[n].state.Terminal() {}
  }

  lemma EntryDone(d: Doc, s: State)
    requires Steady(d, s)
    ensures d.entry in s.nodes && d.exit in s.nodes && s.nodes[d.entry].state.Succeeded? && d.entry != d.exit
    ensures s.run.state.RunRunning? ==> !s.nodes[d.exit].state.Succeeded?
  {
    hide ValidDoc, Core, Placed, NodeFlow, EdgesProject;
    DocEnds(d);
    DrivingFits(d, s);
  }

  // The same, over runs.
  lemma RunsProgress(d: Doc, c: Command, ops: seq<Op>, states: seq<State>, i: nat)
    requires Accepted(d) && IsRun(d, c, ops, states) && i < |states|
    ensures states[i].run.termination.None? && !states[i].run.state.Terminal() ==> HasWork(states[i])
    ensures InputsBound(states[i])
  {
    hide Inv, Accepted, IsRun, Quiet, InputsBound, ValidDoc, Driving, Core, Wound, HasWork;
    CalmAlways(d, c, ops, states, i);
    CalmBound(d, states[i]);
    InvFacts(d, states[i]);
    RunFacts(d, states[i]);
    if states[i].run.termination.None? && !states[i].run.state.Terminal() {
      NeverStuck(d, states[i]);
    }
  }
}
