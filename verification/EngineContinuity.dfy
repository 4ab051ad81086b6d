/**
 What operations leave alone: settled nodes never change, only queueing charges an attempt, and
 a completion is handled once.
 */
module EngineContinuity {
  import opened Ids
  import opened Json
  import opened Runtime
  import opened Workflow
  import opened EngineSpec
  import opened EngineInvariants
  import opened EngineDrive
  import opened EngineSafety
  import B = Branch

  function Activated(x: NodeRun): NodeRun {
    if x.activated then x else x.(activated := true, version := x.version + 1)
  }

  ghost predicate UsableTime(s: State, at: Time) {
    at != 0 && at >= s.run.command.createdAt
  }

  // ---------------------------------------------------------------- what driving does to the nodes

  predicate AtWork(node: NodeRun) {
    node.state.Queued? || node.state.Running?
  }

  // A record that was driven: it was not put to work, not touched once settled, not charged an attempt,
  // and got a higher version if it changed at all.
  ghost predicate Driven(x: NodeRun, y: NodeRun) {
    && (AtWork(y) || x.state.Terminal() ==> y == x)
    && (y == x || y.version > x.version)
    && y.current == x.current && y.nextSeq == x.nextSeq && y.business == x.business && y.recovery == x.recovery
  }

  ghost predicate RunMoved(x: Run, y: Run) {
    y == x || y.version > x.version
  }

  ghost predicate Continues(s: State, t: State) {
    && t.nodes.Keys == s.nodes.Keys && (forall m :: m in s.nodes ==> Driven(s.nodes[m], t.nodes[m]))
    && RunMoved(s.run, t.run)
  }

  lemma ControlDriven(x: NodeRun, route: string, cause: Failure)
    requires x.state.Pending?
    ensures x.SucceedControl(route, map[]).Ok? ==> Driven(x, x.SucceedControl(route, map[]).value)
    ensures x.FailControl(cause).Ok? ==> Driven(x, x.FailControl(cause).value)
  {
  }

  lemma TripDriven(s: State, n: Id, failed: Result<NodeRun>, cause: Failure, at: Time)
    requires n in s.nodes && (failed.Ok? ==> Driven(s.nodes[n], failed.value))
    ensures var r := Trip(s, n, failed, cause, at); !r.Broken? ==> n in r.s.nodes && Driven(s.nodes[n], r.s.nodes[n]) && RunMoved(s.run, r.s.run)
  {
  }

  lemma FireBranchContinues(d: Doc, s: State, n: Id, value: Value, at: Time)
    requires Fits(d, s) && n in s.nodes && s.nodes[n].state.Pending? && d.nodes[n].op.BranchOp?
    ensures var r := FireBranch(d, s, n, value, at); !r.Broken? ==> n in r.s.nodes && Driven(s.nodes[n], r.s.nodes[n]) && RunMoved(s.run, r.s.run)
  {
    hide B.Evaluate, SettledEdges, Driven, Trip;
    match B.Evaluate(d.nodes[n].op.cases, d.nodes[n].op.fallback, value)
    case Took(route) => ControlDriven(s.nodes[n], route, Failure("", "", "", "", ""));
    case PathNotFound =>
      var cause := Failure(BRANCH_PATH, "control_evaluation", n, "", "operation.config");
      ControlDriven(s.nodes[n], "", cause);
      TripDriven(s, n, s.nodes[n].FailControl(cause), cause, at);
    case OperatorMismatch =>
      var cause := Failure(BRANCH_OPERATOR, "control_evaluation", n, "", "operation.config");
      ControlDriven(s.nodes[n], "", cause);
      TripDriven(s, n, s.nodes[n].FailControl(cause), cause, at);
  }

  lemma FireEndContinues(s: State, n: Id, value: Value)
    requires n in s.nodes && s.nodes[n].state.Pending?
    ensures var r := FireEnd(s, n, value); !r.Broken? ==> n in r.s.nodes && Driven(s.nodes[n], r.s.nodes[n]) && RunMoved(s.run, r.s.run)
  {
    hide OthersTerminal;
  }

  lemma FireContinues(d: Doc, s: State, n: Id, at: Time)
    requires Fits(d, s) && n in s.nodes && s.nodes[n].state.Pending?
    ensures var r := Fire(d, s, n, at); !r.Broken? ==> n in r.s.nodes && Driven(s.nodes[n], r.s.nodes[n]) && RunMoved(s.run, r.s.run)
  {
    hide ResolveInputs, FireBranch, FireEnd;
    match ResolveInputs(s, d.nodes[n])
    case Resolved(values) =>
      if d.nodes[n].op.BranchOp? {
        FireBranchContinues(d, s, n, if "value" in values then values["value"] else Null, at);
      } else if d.nodes[n].op.EndOp? {
        FireEndContinues(s, n, if "workflow_output" in values then values["workflow_output"] else Null);
      }
    case _ =>
  }

  lemma VisitContinues(d: Doc, s: State, n: Id, at: Time)
    requires Fits(d, s) && n in s.nodes
    ensures var r := Visit(d, s, n, at); !r.Broken? ==> Continues(s, r.s)
  {
    hide Fire, AllIncomingSettled, AnyIncomingActive, SettledEdges;
    VisitShape(d, s, n, at);
    if s.nodes[n].state.Pending? {
      FireContinues(d, SetNode(s, n, Activated(s.nodes[n])), n, at);
    }
  }

  lemma {:induction false} PassContinues(d: Doc, s: State, ids: seq<Id>, i: nat, at: Time)
    requires Fits(d, s) && i <= |ids| && forall k :: 0 <= k < |ids| ==> ids[k] in d.nodes
    ensures var r := Pass(d, s, ids, i, at); !r.Broken? ==> Continues(s, r.s)
    decreases |ids| - i
  {
    hide Visit;
    if i < |ids| {
      VisitContinues(d, s, ids[i], at);
      VisitFits(d, s, ids[i], at);
      var v := Visit(d, s, ids[i], at);
      if v.Idle? || v.Moved? {
        PassContinues(d, v.s, ids, i + 1, at);
      }
    }
  }

  lemma {:induction false} SweepContinues(d: Doc, s: State, ids: seq<Id>, i: nat, reason: string)
    requires Fits(d, s) && i <= |ids| && forall k :: 0 <= k < |ids| ==> ids[k] in d.nodes
    ensures var r := Sweep(d, s, ids, i, reason); r.Ok? ==> Continues(s, r.value)
    decreases |ids| - i
  {
    hide Outstanding, SettledEdges;
    if i < |ids| {
      var n := ids[i];
      if s.nodes[n].state.Terminal() || Outstanding(s, n) {
        SweepContinues(d, s, ids, i + 1, reason);
      } else if s.nodes[n].Cancel(reason).Ok? {
        SweepContinues(d, Settle(d, SetNode(s, n, s.nodes[n].Cancel(reason).value), n, ""), ids, i + 1, reason);
      }
    }
  }

  lemma ContinuesTransitive(s: State, t: State, u: State)
    requires Continues(s, t) && Continues(t, u)
    ensures Continues(s, u)
  {
    forall m | m in s.nodes ensures Driven(s.nodes[m], u.nodes[m]) {
      assert Driven(s.nodes[m], t.nodes[m]) && Driven(t.nodes[m], u.nodes[m]);
    }
  }

  lemma WindContinues(d: Doc, s: State)
    requires Fits(d, s) && s.run.termination.Some?
    ensures Wind(d, s).Ok? ==> Continues(s, Wind(d, s).value)
  {
    hide Sweep, Driven;
    ListingInside(d);
    SweepContinues(d, s, Listing(d.nodes.Keys), 0, CancelReason(s.run.termination.value.kind));
  }

  lemma {:induction false} DriveContinues(d: Doc, s: State, at: Time)
    requires Fits(d, s)
    ensures var r := Drive(d, s, at); r.Ok? ==> Continues(s, r.value)
    decreases Pendings(s)
  {
    hide Pass, Wind, Continues;
    var ids := Listing(d.nodes.Keys);
    ListingInside(d);
    if s.run.termination.Some? {
      WindContinues(d, s);
    } else {
      PassFits(d, s, ids, 0, at);
      PassContinues(d, s, ids, 0, at);
      var p := Pass(d, s, ids, 0, at);
      if p.Tripped? || (p.Moved? && !p.s.run.state.Terminal()) {
        DriveContinues(d, p.s, at);
        if Drive(d, p.s, at).Ok? {
          ContinuesTransitive(s, p.s, Drive(d, p.s, at).value);
        }
      }
    }
  }

  // Attempt a is the current attempt of a node at work.
  ghost predicate Open(s: State, a: Id) {
    && a in s.attempts && s.attempts[a].node in s.nodes && s.nodes[s.attempts[a].node].current == a
    && AtWork(s.nodes[s.attempts[a].node])
  }

  // Handling the completion of an attempt that is not open changes nothing.
  lemma StaleChangesNothing(d: Doc, s: State, a: Id, at: Time)
    requires Inv(d, s) && Fits(d, s) && a in s.attempts && s.attempts[a].result.Some? && UsableTime(s, at) && !Open(s, a)
    ensures HandleCompleted(d, s, a, at) == Ok(s)
  {
    hide Inv, Core, ValidDoc, Conclude, ConcludeWinding, Drive, RetryAs;
    InvFacts(d, s);
    AttemptFacts(d, s, a);
  }

  // Handling a completion opens nothing, and closes the attempt it handles.
  lemma HandleCloses(d: Doc, s: State, a: Id, at: Time)
    requires Inv(d, s) && Fits(d, s) && HandleCompleted(d, s, a, at).Ok?
    ensures Continues(s, HandleCompleted(d, s, a, at).value) && !Open(HandleCompleted(d, s, a, at).value, a)
  {
    hide Inv, Core, ValidDoc, Drive, RetryAs, Driving, Falling, Conclude, ConcludeWinding, Continues, Closed;
    HandleKeeps(d, s, a, at);
    if Open(s, a) {
      var n, r := s.attempts[a].node, s.attempts[a].result.value;
      ConcludeCloses(d, s, n, a, r, at);
      ConcludeFits(d, s, n, a, r, at);
      if s.run.termination.Some? {
        var t := ConcludeWinding(d, s, n, a, r).value;
        DriveContinues(d, t, at);
        ClosesThenDrives(s, t, HandleCompleted(d, s, a, at).value, n, a);
      } else if RetryAs(d.nodes[n], s.nodes[n], r).Some? {
        WaitCloses(s, n, a, RetryAs(d.nodes[n], s.nodes[n], r).value, at + d.nodes[n].policy.delay);
      } else {
        var t := Conclude(d, s, n, a, r, at).value;
        DriveContinues(d, t, at);
        ClosesThenDrives(s, t, HandleCompleted(d, s, a, at).value, n, a);
      }
    } else {
      StaleChangesNothing(d, s, a, at);
      ContinuesReflexive(s);
    }
  }

  lemma ContinuesReflexive(s: State)
    ensures Continues(s, s)
  {
  }

  lemma ClosesThenDrives(s: State, t: State, u: State, n: Id, a: Id)
    requires Closed(s, t, n) && Continues(t, u) && a in s.attempts && s.attempts[a].node == n && u.attempts == s.attempts
    ensures Continues(s, u) && !Open(u, a)
  {
    assert Continues(s, t);
    ContinuesTransitive(s, t, u);
    assert Driven(t.nodes[n], u.nodes[n]);
  }

  // t differs from s in the record of n, which is not at work any more.
  ghost predicate Closed(s: State, t: State, n: Id) {
    n in s.nodes && n in t.nodes && t.nodes == s.nodes[n := t.nodes[n]] && !AtWork(t.nodes[n])
    && Driven(s.nodes[n], t.nodes[n]) && RunMoved(s.run, t.run)
  }

  lemma AcceptCloses(d: Doc, s: State, n: Id, a: Id, values: map<string, Value>)
    requires Fits(d, s) && n in s.nodes
    ensures AcceptSuccess(d, s, n, a, values).Ok? ==> Closed(s, AcceptSuccess(d, s, n, a, values).value, n)
  {
    hide ValidOutputs, SettledEdges;
  }

  lemma FailCloses(s: State, n: Id, failed: Result<NodeRun>, cause: Failure, at: Time)
    requires n in s.nodes && (failed.Ok? ==> !AtWork(failed.value) && Driven(s.nodes[n], failed.value))
    ensures FailNode(s, n, failed, cause, at).Ok? ==> Closed(s, FailNode(s, n, failed, cause, at).value, n)
  {
  }

  lemma ConcludeCloses(d: Doc, s: State, n: Id, a: Id, r: AttemptResult, at: Time)
    requires Fits(d, s) && n in s.nodes
    ensures Conclude(d, s, n, a, r, at).Ok? ==> Closed(s, Conclude(d, s, n, a, r, at).value, n)
    ensures s.run.termination.Some? && ConcludeWinding(d, s, n, a, r).Ok? ==> Closed(s, ConcludeWinding(d, s, n, a, r).value, n)
  {
    hide AcceptSuccess, FailNode;
    AcceptCloses(d, s, n, a, r.outputs);
    forall failed: Result<NodeRun>, cause | failed.Ok? ==> !AtWork(failed.value) && Driven(s.nodes[n], failed.value)
      ensures FailNode(s, n, failed, cause, at).Ok? ==> Closed(s, FailNode(s, n, failed, cause, at).value, n)
    {
      FailCloses(s, n, failed, cause, at);
    }
  }

  lemma WaitCloses(s: State, n: Id, a: Id, kind: RetryKind, due: Time)
    requires n in s.nodes && s.nodes[n].WaitForRetry(a, kind, due).Ok?
    ensures var t := SetNode(s, n, s.nodes[n].WaitForRetry(a, kind, due).value); Continues(s, t) && !AtWork(t.nodes[n])
  {
  }

  // Handling the same completion twice is handling it once, whenever the second time is.
  lemma TwiceIsOnce(d: Doc, s: State, a: Id, at: Time, later: Time)
    requires Inv(d, s) && Fits(d, s) && HandleCompleted(d, s, a, at).Ok? && UsableTime(s, later)
    ensures var t := HandleCompleted(d, s, a, at).value;
            Fits(d, t) && HandleCompleted(d, t, a, later) == Ok(t)
  {
    hide Inv, HandleCompleted, Open, Continues;
    HandleKeeps(d, s, a, at);
    HandleCloses(d, s, a, at);
    var t := HandleCompleted(d, s, a, at).value;
    InvFits(d, t);
    StaleChangesNothing(d, t, a, later);
  }

  // ---------------------------------------------------------------- settled nodes are final

  // Every record that is over stays as it is.
  ghost predicate KeepsSettled(s: State, t: State) {
    && t.nodes.Keys == s.nodes.Keys
    && forall m :: m in s.nodes && s.nodes[m].state.Terminal() ==> t.nodes[m] == s.nodes[m]
  }

  // No operation changes a node that is over.
  lemma SettledIsFinal(d: Doc, s: State, op: Op)
    requires Inv(d, s)
    ensures Fits(d, s) && KeepsSettled(s, Apply(d, s, op))
  {
    hide Inv, HandleCompleted, Drive, Driven;
    InvFits(d, s);
    match op
    case Queue(n, a) =>
    case Start(a) =>
    case Record(a, r) =>
    case Completed(a, at) =>
      if HandleCompleted(d, s, a, at).Ok? {
        HandleCloses(d, s, a, at);
        ContinuesSettled(s, Apply(d, s, op));
      }
    case Due(n, at) => RetryDueContinues(d, s, n, at);
    case Cancel(at) => StopContinues(d, s, Intent(CanceledKind, at, Failure(RUN_CANCELED, "run_control", "", "", "")));
    case Deadline(at) => StopContinues(d, s, Intent(TimedOutKind, at, Failure(RUN_TIMED_OUT, "run_deadline", "", "", "")));
  }

  lemma ContinuesSettled(s: State, t: State)
    requires Continues(s, t)
    ensures KeepsSettled(s, t)
  {
  }

  lemma RetryDueContinues(d: Doc, s: State, n: Id, at: Time)
    requires Fits(d, s)
    ensures RetryDue(d, s, n, at).Ok? ==> KeepsSettled(s, RetryDue(d, s, n, at).value)
    ensures RetryDue(d, s, n, at).Ok? ==> Continues(s, RetryDue(d, s, n, at).value)
  {
    hide Drive;
    DriveContinues(d, s, at);
  }

  lemma StopContinues(d: Doc, s: State, intent: Intent)
    requires Fits(d, s)
    ensures RequestStop(d, s, intent).Ok? ==> KeepsSettled(s, RequestStop(d, s, intent).value.0)
    ensures RequestStop(d, s, intent).Ok? ==> Continues(s, RequestStop(d, s, intent).value.0)
  {
    hide Drive;
    if !s.run.state.Terminal() && s.run.RequestTermination(intent).Ok? {
      DriveContinues(d, s.(run := s.run.RequestTermination(intent).value.0), intent.requestedAt);
    }
  }

  // ---------------------------------------------------------------- every attempt is accounted for

  ghost function AttemptsOf(s: State, n: Id): set<Id> {
    set a | a in s.attempts && s.attempts[a].node == n
  }

  // The attempts of node n are numbered 1 to nextSeq, without gaps or repetitions.
  ghost predicate Numbered(s: State, n: Id) {
    && n in s.nodes && |AttemptsOf(s, n)| == s.nodes[n].nextSeq
    && (forall a :: a in AttemptsOf(s, n) ==> 1 <= s.attempts[a].sequence <= s.nodes[n].nextSeq)
    && (forall a, b :: a in AttemptsOf(s, n) && b in AttemptsOf(s, n) && s.attempts[a].sequence == s.attempts[b].sequence ==> a == b)
  }

  ghost predicate Tallied(s: State) {
    forall n :: n in s.nodes ==> Numbered(s, n)
  }

  // The attempts keep their node and number, and the nodes their counts.
  ghost predicate SameTally(s: State, t: State) {
    && t.attempts.Keys == s.attempts.Keys && t.nodes.Keys == s.nodes.Keys
    && (forall a :: a in s.attempts ==> t.attempts[a].node == s.attempts[a].node && t.attempts[a].sequence == s.attempts[a].sequence)
    && (forall n :: n in s.nodes ==> t.nodes[n].nextSeq == s.nodes[n].nextSeq)
  }

  lemma TallyKept(s: State, t: State)
    requires Tallied(s) && SameTally(s, t)
    ensures Tallied(t)
  {
    forall n | n in t.nodes ensures Numbered(t, n) {
      assert Numbered(s, n);
      assert AttemptsOf(t, n) == AttemptsOf(s, n);
    }
  }

  // What queueing an attempt does to the tally.
  lemma QueueShape(s: State, n: Id, a: Id)
    requires QueueNode(s, n, a).Ok?
    ensures var t := QueueNode(s, n, a).value;
            && n in s.nodes && a !in s.attempts && t.nodes.Keys == s.nodes.Keys && t.attempts.Keys == s.attempts.Keys + {a}
            && (forall b :: b in s.attempts ==> t.attempts[b] == s.attempts[b])
            && (forall m :: m in s.nodes && m != n ==> t.nodes[m] == s.nodes[m])
            && t.attempts[a].node == n && t.nodes[n].nextSeq == t.attempts[a].sequence == s.nodes[n].nextSeq + 1
  {
  }

  lemma QueueTally(s: State, n: Id, a: Id)
    requires Tallied(s) && QueueNode(s, n, a).Ok?
    ensures Tallied(QueueNode(s, n, a).value)
  {
    hide QueueNode, Numbered;
    QueueShape(s, n, a);
    var t := QueueNode(s, n, a).value;
    forall m | m in t.nodes ensures Numbered(t, m) {
      if m == n {
        OneMore(s, t, n, a);
      } else {
        NoMore(s, t, m);
      }
    }
  }

  lemma OneMore(s: State, t: State, n: Id, a: Id)
    requires Numbered(s, n) && n in t.nodes && a !in s.attempts && t.attempts.Keys == s.attempts.Keys + {a}
    requires forall b :: b in s.attempts ==> t.attempts[b] == s.attempts[b]
    requires t.attempts[a].node == n && t.nodes[n].nextSeq == t.attempts[a].sequence == s.nodes[n].nextSeq + 1
    ensures Numbered(t, n)
  {
    assert AttemptsOf(t, n) == AttemptsOf(s, n) + {a};
  }

  lemma NoMore(s: State, t: State, n: Id)
    requires Numbered(s, n) && n in t.nodes && s.attempts.Keys <= t.attempts.Keys && t.nodes[n] == s.nodes[n]
    requires forall b :: b in s.attempts ==> t.attempts[b] == s.attempts[b]
    requires forall b :: b in t.attempts && b !in s.attempts ==> t.attempts[b].node != n
    ensures Numbered(t, n)
  {
    assert AttemptsOf(t, n) == AttemptsOf(s, n);
  }

  lemma ContinuesTally(s: State, t: State)
    requires Continues(s, t) && t.attempts == s.attempts
    ensures SameTally(s, t)
  {
  }

  lemma ApplyTally(d: Doc, s: State, op: Op)
    requires Inv(d, s) && Tallied(s)
    ensures Fits(d, s) && Tallied(Apply(d, s, op))
  {
    hide Inv, HandleCompleted, RequestStop, RetryDue, Tallied, QueueNode, Continues;
    InvFits(d, s);
    match op
    case Queue(n, a) => if QueueNode(s, n, a).Ok? { QueueTally(s, n, a); }
    case Start(a) => TallyKept(s, Apply(d, s, op));
    case Record(a, r) => TallyKept(s, Apply(d, s, op));
    case Completed(a, at) =>
      HandleKeeps(d, s, a, at);
      if HandleCompleted(d, s, a, at).Ok? {
        HandleCloses(d, s, a, at);
        ContinuesTally(s, Apply(d, s, op));
        TallyKept(s, Apply(d, s, op));
      }
    case Due(n, at) =>
      RetryDueKeeps(d, s, n, at);
      RetryDueContinues(d, s, n, at);
      if RetryDue(d, s, n, at).Ok? {
        ContinuesTally(s, Apply(d, s, op));
        TallyKept(s, Apply(d, s, op));
      }
    case Cancel(at) => StopTally(d, s, Intent(CanceledKind, at, Failure(RUN_CANCELED, "run_control", "", "", "")));
    case Deadline(at) => StopTally(d, s, Intent(TimedOutKind, at, Failure(RUN_TIMED_OUT, "run_deadline", "", "", "")));
  }

  lemma StopTally(d: Doc, s: State, intent: Intent)
    requires Inv(d, s) && Fits(d, s) && Tallied(s) && intent.cause.code != ""
    ensures RequestStop(d, s, intent).Ok? ==> Tallied(RequestStop(d, s, intent).value.0)
  {
    hide Inv, RequestStop, Tallied, Continues;
    RequestStopKeeps(d, s, intent);
    StopContinues(d, s, intent);
    if RequestStop(d, s, intent).Ok? {
      ContinuesTally(s, RequestStop(d, s, intent).value.0);
      TallyKept(s, RequestStop(d, s, intent).value.0);
    }
  }

  lemma NewTally(d: Doc, c: Command)
    requires New(d, c).Ok?
    ensures Tallied(New(d, c).value)
  {
    hide ValidDoc, Driving, Inv, Drive, Seeded, ValidCommand;
    NewKeeps(d, c);
    SeededKeeps(d, c);
    DocNames(d);
    SeededShape(d, c);
    var s, t := Seeded(d, c).value, New(d, c).value;
    DriveContinues(d, s, 0);
    forall n | n in t.nodes ensures Numbered(t, n) {
      assert AttemptsOf(t, n) == {};
      assert Driven(s.nodes[n], t.nodes[n]);
    }
  }

  // In every run, a node has exactly as many attempts as its counters say, numbered without gaps:
  // so never more than its policy allows.
  lemma {:induction false} TalliedAlways(d: Doc, c: Command, ops: seq<Op>, states: seq<State>, i: nat)
    requires IsRun(d, c, ops, states) && i < |states|
    ensures Tallied(states[i])
  {
    hide Inv, Tallied, Apply, New;
    if i == 0 {
      NewTally(d, c);
    } else {
      TalliedAlways(d, c, ops, states, i - 1);
      InvAlways(d, c, ops, states, i - 1);
      assert Follows(d, states[i - 1], ops[i - 1], states[i]);
      ApplyTally(d, states[i - 1], ops[i - 1]);
    }
  }
}
