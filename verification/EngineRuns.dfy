/**
 What holds over whole runs: any sequence of engine operations, issued by anyone in any order.
 */
module EngineRuns {
  import opened Ids
  import opened Json
  import opened Runtime
  import opened Graphs
  import opened Workflow
  import opened EngineSpec
  import opened EngineInvariants
  import opened EngineDrive
  import opened EngineSafety
  import opened EngineContinuity
  import F = EngineFlow
  import opened C = EngineConfluence

  // ---------------------------------------------------------------- provenance over runs

  // Without an intent, every node that fired did so on the outputs its sources still show.
  ghost predicate Traced(d: Doc, s: State) {
    Inv(d, s) && Fits(d, s) && (s.run.termination.None? ==> Explained(d, s))
  }

  lemma TracedSound(d: Doc, s: State)
    requires Traced(d, s) && s.run.termination.None?
    ensures Sound(d, s)
  {
    hide Inv, Explained;
  }

  lemma OpenTask(d: Doc, s: State, n: Id)
    requires Inv(d, s) && n in s.nodes && !s.nodes[n].state.Terminal() && !s.nodes[n].state.Pending?
    ensures n in d.nodes && d.nodes[n].op.TaskOp?
  {
    hide Inv, Core, ValidDoc, Driving, Falling, Wound;
    InvFacts(d, s);
    OpenIsTask(d, s, n);
  }

  lemma QueueExplained(d: Doc, s: State, n: Id, a: Id)
    requires Sound(d, s) && QueueNode(s, n, a).Ok?
    ensures var t := QueueNode(s, n, a).value; Fits(d, t) && Explained(d, t)
  {
    hide Inv, Fired;
    OpenTask(d, s, n);
    ExplainedOpen(d, s, QueueNode(s, n, a).value, n);
  }

  lemma StartExplained(d: Doc, s: State, a: Id)
    requires Sound(d, s) && StartAttempt(s, a).Ok?
    ensures var t := StartAttempt(s, a).value; Fits(d, t) && Explained(d, t)
  {
    hide Inv, Fired;
    if !s.attempts[a].state.AttemptRunning? {
      var n := s.attempts[a].node;
      OpenTask(d, s, n);
      ExplainedOpen(d, s, StartAttempt(s, a).value, n);
    }
  }

  lemma RecordExplained(d: Doc, s: State, a: Id, r: AttemptResult)
    requires Sound(d, s) && RecordResult(s, a, r).Ok?
    ensures var t := RecordResult(s, a, r).value.0; Fits(d, t) && Explained(d, t)
  {
    hide Inv, Fired;
    var n, t := s.attempts[a].node, RecordResult(s, a, r).value.0;
    assert t.nodes == s.nodes[n := t.nodes[n]];
    ExplainedOpen(d, s, t, n);
  }

  // A completion that is neither a success nor retried ends the node badly.
  lemma BadConclusion(d: Doc, s: State, n: Id, a: Id, r: AttemptResult, at: Time)
    requires Fits(d, s) && n in s.nodes && !r.state.AttemptSucceeded?
    ensures Conclude(d, s, n, a, r, at).Ok? ==>
              n in Conclude(d, s, n, a, r, at).value.nodes && EndedBadly(Conclude(d, s, n, a, r, at).value.nodes[n])
  {
    hide AcceptSuccess;
  }

  lemma RetryExplained(d: Doc, s: State, n: Id, a: Id, kind: RetryKind, due: Time)
    requires Sound(d, s) && n in s.nodes && s.nodes[n].WaitForRetry(a, kind, due).Ok?
    ensures var t := SetNode(s, n, s.nodes[n].WaitForRetry(a, kind, due).value); Fits(d, t) && Explained(d, t)
  {
    hide Inv, Fired;
    OpenTask(d, s, n);
    ExplainedOpen(d, s, SetNode(s, n, s.nodes[n].WaitForRetry(a, kind, due).value), n);
  }

  lemma HandleExplained(d: Doc, s: State, a: Id, at: Time)
    requires Sound(d, s) && HandleCompleted(d, s, a, at).Ok? && HandleCompleted(d, s, a, at).value.run.termination.None?
    ensures var t := HandleCompleted(d, s, a, at).value; Fits(d, t) && Explained(d, t)
  {
    hide Inv, Explained, Core, Driving, Falling, ValidDoc, Drive, Conclude, RetryAs, NodeOk, Concluding, OpenIn;
    HandleKeeps(d, s, a, at);
    if !Open(s, a) {
      StaleChangesNothing(d, s, a, at);
    } else if Fresh(s, a) {
      HandleClimbs(d, s, a, at);
    } else {
      InvFacts(d, s);
      ConcludingFacts(d, s, a);
      OpenFromInv(d, s, a);
      var n, r := s.attempts[a].node, s.attempts[a].result.value;
      ConcludingIsCurrent(d.nodes[n], n, s.nodes[n], s.attempts, a);
      if RetryAs(d.nodes[n], s.nodes[n], r).Some? {
        RetryExplained(d, s, n, a, RetryAs(d.nodes[n], s.nodes[n], r).value, at + d.nodes[n].policy.delay);
      } else {
        ConcludeKeeps(d, s, a, at);
        BadConclusion(d, s, n, a, r, at);
        var t := Conclude(d, s, n, a, r, at).value;
        NotDriving(d, t, n);
        FallingFacts(d, t);
        TrippedTerminates(d, t, at);
        assert false;
      }
    }
  }

  lemma NotDriving(d: Doc, s: State, n: Id)
    requires n in s.nodes && EndedBadly(s.nodes[n])
    ensures !Driving(d, s)
  {
    hide Flow;
  }

  lemma RetryDueExplained(d: Doc, s: State, n: Id, at: Time)
    requires Sound(d, s) && RetryDue(d, s, n, at).Ok?
    ensures var t := RetryDue(d, s, n, at).value; Fits(d, t) && Explained(d, t)
  {
    hide Inv, Fired, Drive;
    if s.nodes[n].state.RetryWait? {
      OpenTask(d, s, n);
      ExplainedOpen(d, s, RetryDue(d, s, n, at).value, n);
    }
  }

  lemma StopExplained(d: Doc, s: State, intent: Intent)
    requires Sound(d, s) && intent.cause.code != "" && RequestStop(d, s, intent).Ok?
    requires RequestStop(d, s, intent).value.0.run.termination.None?
    ensures RequestStop(d, s, intent).value.0 == s
  {
    hide Inv, Explained, Drive;
    RequestStopKeeps(d, s, intent);
  }

  lemma ApplyTraced(d: Doc, s: State, op: Op)
    requires Traced(d, s)
    ensures Traced(d, Apply(d, s, op))
  {
    hide Inv, Explained, QueueNode, StartAttempt, RecordResult, HandleCompleted, RetryDue, RequestStop;
    ApplyKeeps(d, s, op);
    var t := Apply(d, s, op);
    InvFits(d, t);
    if t.run.termination.None? {
      match op
      case Queue(n, a) => if QueueNode(s, n, a).Ok? { QueueExplained(d, s, n, a); }
      case Start(a) => if StartAttempt(s, a).Ok? { StartExplained(d, s, a); }
      case Record(a, r) => if RecordResult(s, a, r).Ok? { RecordExplained(d, s, a, r); }
      case Completed(a, at) => if HandleCompleted(d, s, a, at).Ok? { HandleExplained(d, s, a, at); }
      case Due(n, at) => if RetryDue(d, s, n, at).Ok? { RetryDueExplained(d, s, n, at); }
      case Cancel(at) =>
        var intent := Intent(CanceledKind, at, Failure(RUN_CANCELED, "run_control", "", "", ""));
        if RequestStop(d, s, intent).Ok? { StopExplained(d, s, intent); }
      case Deadline(at) =>
        var intent := Intent(TimedOutKind, at, Failure(RUN_TIMED_OUT, "run_deadline", "", "", ""));
        if !s.run.state.Terminal() && at >= s.run.command.deadlineAt && RequestStop(d, s, intent).Ok? { StopExplained(d, s, intent); }
    }
  }

  lemma NewTraced(d: Doc, c: Command)
    requires New(d, c).Ok?
    ensures Traced(d, New(d, c).value)
  {
    hide ValidDoc, Driving, Inv, Drive, Seeded, ValidCommand, ResolveInputs, FiredOn;
    NewKeeps(d, c);
    var t := New(d, c).value;
    InvFits(d, t);
    if t.run.termination.None? {
      SeededKeeps(d, c);
      DocNames(d);
      SeededShape(d, c);
      DriveClimbs(d, Seeded(d, c).value, 0);
    }
  }

  // In every state of every run, what fired is explained by what is still there.
  lemma {:induction false} TracedAlways(d: Doc, c: Command, ops: seq<Op>, states: seq<State>, i: nat)
    requires IsRun(d, c, ops, states) && i < |states|
    ensures Traced(d, states[i])
  {
    hide Traced, Apply, New, Inv;
    if i == 0 {
      NewTraced(d, c);
    } else {
      TracedAlways(d, c, ops, states, i - 1);
      assert Follows(d, states[i - 1], ops[i - 1], states[i]);
      ApplyTraced(d, states[i - 1], ops[i - 1]);
    }
  }

  // In any state a run reaches, successful completions of two attempts commute.
  lemma RunsCommute(d: Doc, c: Command, ops: seq<Op>, states: seq<State>, i: nat, a: Id, b: Id, atA: Time, atB: Time)
    requires IsRun(d, c, ops, states) && i < |states| && states[i].run.termination.None?
    requires HasSucceeded(states[i], a) && HasSucceeded(states[i], b) && a != b
    requires UsableTime(states[i], atA) && UsableTime(states[i], atB)
    ensures var s := states[i];
            && Fits(d, s) && Fits(d, Handled(d, s, a, atA)) && Fits(d, Handled(d, s, b, atB))
            && var ab, ba := Handled(d, Handled(d, s, a, atA), b, atB), Handled(d, Handled(d, s, b, atB), a, atA);
               (ab.run.termination.None? <==> ba.run.termination.None?) && (ab.run.termination.None? ==> ab == ba)
  {
    hide IsRun, Traced, Sound, Handled;
    TracedAlways(d, c, ops, states, i);
    TracedSound(d, states[i]);
    TracedFits(d, states[i]);
    CompletionsCommute(d, states[i], a, b, atA, atB);
  }

  lemma TracedFits(d: Doc, s: State)
    requires Traced(d, s)
    ensures Inv(d, s) && Fits(d, s)
  {
    hide Inv, Explained;
  }

  // ---------------------------------------------------------------- activation over runs

  // While nobody asked a run to stop, a settled node was activated exactly when the routes taken
  // activate it, whatever routes the branches still open will take.
  lemma RunsFollowRoutes(d: Doc, c: Command, ops: seq<Op>, states: seq<State>, i: nat, r: Routing, n: Id)
    requires IsRun(d, c, ops, states) && i < |states| && states[i].run.termination.None?
    requires n in states[i].nodes && !states[i].nodes[n].state.Pending? && F.Agrees(d, states[i], r)
    ensures states[i].nodes[n].activated <==> Active(GraphOf(d), n, r)
  {
    hide IsRun, Inv, ValidDoc, Driving, Falling, Core, Wound, F.Agrees, IsTopological;
    InvAlways(d, c, ops, states, i);
    var s := states[i];
    InvFacts(d, s);
    var order := F.DocOrder(d, s);
    F.InOrder(d, order, n);
    var k :| 0 <= k < |order| && order[k] == n;
    F.ActivatedIffActive(d, s, r, order, k);
  }

  // ---------------------------------------------------------------- outcomes

  // A node that failed, timed out or was canceled is never without a recorded intent; and a run
  // with an intent is over exactly when all its nodes are, in the state the intent names.
  lemma OutcomeIsNamed(d: Doc, c: Command, ops: seq<Op>, states: seq<State>, i: nat)
    requires IsRun(d, c, ops, states) && i < |states|
    ensures var s := states[i];
            && (forall n :: n in s.nodes && EndedBadly(s.nodes[n]) ==> s.run.termination.Some?)
            && (s.run.termination.Some? ==>
                  && (s.run.state.Terminal() <==> AllTerminal(s))
                  && (s.run.state.Terminal() ==> s.run.state == TerminalStateOf(s.run.termination.value.kind))
                  && !s.run.state.RunSucceeded?)
            && (s.run.termination.None? && s.run.state.Terminal() ==> s.run.state.RunSucceeded? && AllTerminal(s))
  {
    hide IsRun, ValidDoc, NodeOk, AttemptOk, EdgesProject, Placed, NodeFlow;
    InvAlways(d, c, ops, states, i);
    InvFacts(d, states[i]);
  }

  // The first intent is final: it never changes, and no attempt is created after it.
  lemma {:induction false} IntentIsFinal(d: Doc, c: Command, ops: seq<Op>, states: seq<State>, i: nat, j: nat)
    requires IsRun(d, c, ops, states) && i <= j < |states| && states[i].run.termination.Some?
    ensures states[j].run.termination == states[i].run.termination && states[j].attempts.Keys == states[i].attempts.Keys
    decreases j
  {
    hide Inv, Apply, New;
    if i < j {
      IntentIsFinal(d, c, ops, states, i, j - 1);
      InvAlways(d, c, ops, states, j - 1);
      assert Follows(d, states[j - 1], ops[j - 1], states[j]);
      ApplyKeeps(d, states[j - 1], ops[j - 1]);
    }
  }

  // Winding up leaves open only nodes whose attempt is still out.
  lemma WindLeavesLive(d: Doc, s: State)
    requires Falling(d, s)
    ensures Fits(d, s) && Wind(d, s).Ok?
    ensures forall n :: n in Wind(d, s).value.nodes ==> Wind(d, s).value.nodes[n].state.Terminal() || Outstanding(Wind(d, s).value, n)
  {
    hide Wound, Falling, Core, Sweep, ValidDoc;
    WindKeeps(d, s);
    FallingFacts(d, s);
    ListingInside(d);
    var ids := Listing(d.nodes.Keys);
    FallingCore(d, s);
    SweepKeeps(d, s, ids, 0, CancelReason(s.run.termination.value.kind));
    var t := Sweep(d, s, ids, 0, CancelReason(s.run.termination.value.kind)).value;
    forall n | n in t.nodes ensures t.nodes[n].state.Terminal() || Outstanding(t, n) {
      assert n in Elements(ids);
      var k :| 0 <= k < |ids| && ids[k] == n;
      assert Swept(t, ids[k]);
    }
  }

  lemma FallingCore(d: Doc, s: State)
    requires Falling(d, s)
    ensures Core(d, s)
  {
  }

  // ---------------------------------------------------------------- attempts

  // Attempt a of node n is queued or running.
  ghost predicate Live(s: State, a: Id, n: Id) {
    a in s.attempts && s.attempts[a].node == n && !s.attempts[a].state.Terminal()
  }

  // The counters of a task add up, stay within its policy, and agree with its current attempt
  // and the number of attempts ever made; no node has two attempts out.
  lemma AttemptsWithinPolicy(d: Doc, c: Command, ops: seq<Op>, states: seq<State>, i: nat, n: Id)
    requires IsRun(d, c, ops, states) && i < |states| && n in states[i].nodes
    ensures n in d.nodes
    ensures var s, node := states[i], states[i].nodes[n];
            && node.nextSeq == node.business + node.recovery
            && node.business <= d.nodes[n].policy.maxAttempts && node.recovery <= d.nodes[n].policy.maxRecoveries
            && (node.current != "" ==> node.current in s.attempts && s.attempts[node.current].sequence == node.nextSeq)
            && |AttemptsOf(s, n)| == node.nextSeq
            && forall a, b :: Live(s, a, n) && Live(s, b, n) ==> a == b
  {
    hide IsRun, ValidDoc, RunOk, Driving, Falling, Wound, Inv;
    InvAlways(d, c, ops, states, i);
    InvFacts(d, states[i]);
    assert Numbered(states[i], n) by { TalliedAlways(d, c, ops, states, i); }
    assert NodeOk(d.nodes[n], n, states[i].nodes[n], states[i].attempts);
    forall a | Live(states[i], a, n) ensures states[i].nodes[n].current == a
    {
      assert AttemptOk(states[i].nodes, a, states[i].attempts[a]);
    }
  }
}
