/**
 Where outputs come from: a succeeded task shows exactly the outputs that its effective attempt
 recorded, and no other node but the entry shows any.
 */
module EngineOutputs {
  import opened Ids
  import opened Json
  import opened Runtime
  import opened Workflow
  import opened EngineSpec
  import opened EngineInvariants
  import opened EngineDrive
  import opened EngineSafety
  import opened EngineContinuity
  import B = Branch

  ghost predicate Sourced(def: NodeDef, node: NodeRun, attempts: map<Id, Attempt>) {
    && (node.kind.Control? ==> node.effective == "")
    && (if node.effective == "" then def.op.StartOp? || node.outputs == map[]
        else node.effective in attempts && attempts[node.effective].result.Some?
             && node.outputs == attempts[node.effective].result.value.outputs)
  }

  ghost predicate AllSourced(d: Doc, s: State) {
    Fits(d, s) && forall n :: n in s.nodes ==> Sourced(d.nodes[n], s.nodes[n], s.attempts)
  }

  // A record changed without touching the outputs, except that a control node may clear them.
  ghost predicate Untouched(x: NodeRun, y: NodeRun) {
    y.kind == x.kind && y.effective == x.effective && (y.outputs == x.outputs || (x.kind.Control? && y.outputs == map[]))
  }

  lemma SourcedUpdate(d: Doc, s: State, t: State, n: Id)
    requires AllSourced(d, s) && n in s.nodes && n in t.nodes && t.nodes == s.nodes[n := t.nodes[n]]
    requires t.attempts == s.attempts && |t.edges| == |s.edges| && Sourced(d.nodes[n], t.nodes[n], s.attempts)
    ensures AllSourced(d, t)
  {
    hide Sourced;
    assert t.nodes.Keys == s.nodes.Keys;
    forall m | m in t.nodes ensures Sourced(d.nodes[m], t.nodes[m], t.attempts) {
      assert Sourced(d.nodes[m], s.nodes[m], s.attempts);
    }
  }

  lemma UntouchedSourced(def: NodeDef, x: NodeRun, y: NodeRun, attempts: map<Id, Attempt>)
    requires Sourced(def, x, attempts) && Untouched(x, y)
    ensures Sourced(def, y, attempts)
  {
  }

  // ---------------------------------------------------------------- driving

  lemma BranchUntouched(d: Doc, s: State, n: Id, value: Value, at: Time)
    requires Fits(d, s) && n in s.nodes && d.nodes[n].op.BranchOp?
    ensures var r := FireBranch(d, s, n, value, at); !r.Broken? ==> n in r.s.nodes && Untouched(s.nodes[n], r.s.nodes[n])
  {
    hide B.Evaluate, SettledEdges;
  }

  lemma EndUntouched(s: State, n: Id, value: Value)
    requires n in s.nodes
    ensures var r := FireEnd(s, n, value); !r.Broken? ==> n in r.s.nodes && Untouched(s.nodes[n], r.s.nodes[n])
  {
    hide OthersTerminal;
  }

  lemma FireUntouched(d: Doc, s: State, n: Id, at: Time)
    requires Fits(d, s) && n in s.nodes
    ensures var r := Fire(d, s, n, at); !r.Broken? ==> n in r.s.nodes && Untouched(s.nodes[n], r.s.nodes[n])
  {
    hide ResolveInputs, FireBranch, FireEnd;
    match ResolveInputs(s, d.nodes[n])
    case Resolved(values) =>
      if d.nodes[n].op.BranchOp? {
        BranchUntouched(d, s, n, if "value" in values then values["value"] else Null, at);
      } else if d.nodes[n].op.EndOp? {
        EndUntouched(s, n, if "workflow_output" in values then values["workflow_output"] else Null);
      }
    case _ =>
  }

  lemma VisitSourced(d: Doc, s: State, n: Id, at: Time)
    requires AllSourced(d, s) && n in s.nodes
    ensures Fits(d, s)
    ensures var r := Visit(d, s, n, at); !r.Broken? ==> AllSourced(d, r.s)
  {
    hide Fire, AllIncomingSettled, AnyIncomingActive, SettledEdges, Sourced;
    VisitShape(d, s, n, at);
    VisitFits(d, s, n, at);
    var r := Visit(d, s, n, at);
    if !r.Broken? && r.s != s {
      FireUntouched(d, SetNode(s, n, Activated(s.nodes[n])), n, at);
      UntouchedSourced(d.nodes[n], s.nodes[n], r.s.nodes[n], s.attempts);
      SourcedUpdate(d, s, r.s, n);
    }
  }

  lemma {:induction false} PassSourced(d: Doc, s: State, ids: seq<Id>, i: nat, at: Time)
    requires AllSourced(d, s) && Fits(d, s) && i <= |ids| && forall k :: 0 <= k < |ids| ==> ids[k] in d.nodes
    ensures var r := Pass(d, s, ids, i, at); !r.Broken? ==> AllSourced(d, r.s)
    decreases |ids| - i
  {
    hide Visit, AllSourced;
    if i < |ids| {
      VisitSourced(d, s, ids[i], at);
      VisitFits(d, s, ids[i], at);
      var v := Visit(d, s, ids[i], at);
      if v.Idle? || v.Moved? {
        PassSourced(d, v.s, ids, i + 1, at);
      }
    }
  }

  lemma {:induction false} SweepSourced(d: Doc, s: State, ids: seq<Id>, i: nat, reason: string)
    requires AllSourced(d, s) && Fits(d, s) && i <= |ids| && forall k :: 0 <= k < |ids| ==> ids[k] in d.nodes
    ensures var r := Sweep(d, s, ids, i, reason); r.Ok? ==> AllSourced(d, r.value)
    decreases |ids| - i
  {
    hide Outstanding, SettledEdges, Sourced;
    if i < |ids| {
      var n := ids[i];
      if s.nodes[n].state.Terminal() || Outstanding(s, n) {
        SweepSourced(d, s, ids, i + 1, reason);
      } else if s.nodes[n].Cancel(reason).Ok? {
        var t := Settle(d, SetNode(s, n, s.nodes[n].Cancel(reason).value), n, "");
        UntouchedSourced(d.nodes[n], s.nodes[n], t.nodes[n], s.attempts);
        SourcedUpdate(d, s, t, n);
        SweepSourced(d, t, ids, i + 1, reason);
      }
    }
  }

  lemma SourcedSame(d: Doc, s: State, t: State)
    requires AllSourced(d, s) && t.nodes == s.nodes && t.attempts == s.attempts && |t.edges| == |s.edges|
    ensures AllSourced(d, t)
  {
    hide Sourced;
  }

  lemma {:induction false} DriveSourced(d: Doc, s: State, at: Time)
    requires AllSourced(d, s) && Fits(d, s)
    ensures var r := Drive(d, s, at); r.Ok? ==> AllSourced(d, r.value)
    decreases Pendings(s)
  {
    hide Pass, Sweep, AllSourced;
    var ids := Listing(d.nodes.Keys);
    ListingInside(d);
    if s.run.termination.Some? {
      var swept := Sweep(d, s, ids, 0, CancelReason(s.run.termination.value.kind));
      SweepSourced(d, s, ids, 0, CancelReason(s.run.termination.value.kind));
      if swept.Ok? && Wind(d, s).Ok? {
        SourcedSame(d, swept.value, Wind(d, s).value);
      }
    } else {
      PassFits(d, s, ids, 0, at);
      PassSourced(d, s, ids, 0, at);
      var p := Pass(d, s, ids, 0, at);
      if p.Tripped? || (p.Moved? && !p.s.run.state.Terminal()) {
        DriveSourced(d, p.s, at);
      }
    }
  }

  // ---------------------------------------------------------------- operations

  // The record an accepted success leaves.
  lemma SuccessSourced(def: NodeDef, node: NodeRun, attempts: map<Id, Attempt>, a: Id)
    requires a in attempts && attempts[a].result.Some? && a != ""
    requires node.SucceedAttempt(a, attempts[a].result.value.outputs).Ok?
    ensures Sourced(def, node.SucceedAttempt(a, attempts[a].result.value.outputs).value, attempts)
  {
  }

  lemma ConcludeSourced(d: Doc, s: State, n: Id, a: Id, at: Time)
    requires AllSourced(d, s) && Fits(d, s) && n in s.nodes && a in s.attempts && s.attempts[a].result.Some? && a != ""
    ensures var r := s.attempts[a].result.value;
            && (Conclude(d, s, n, a, r, at).Ok? ==> AllSourced(d, Conclude(d, s, n, a, r, at).value))
            && (s.run.termination.Some? && ConcludeWinding(d, s, n, a, r).Ok? ==> AllSourced(d, ConcludeWinding(d, s, n, a, r).value))
  {
    hide AllSourced, AcceptSuccess, FailNode;
    var r := s.attempts[a].result.value;
    AcceptSourced(d, s, n, a);
    forall failed: Result<NodeRun>, cause | failed.Ok? ==> Untouched(s.nodes[n], failed.value)
      ensures FailNode(s, n, failed, cause, at).Ok? ==> AllSourced(d, FailNode(s, n, failed, cause, at).value)
    {
      FailSourced(d, s, n, failed, cause, at);
    }
    if s.run.termination.Some? && s.nodes[n].Cancel(CancelReason(s.run.termination.value.kind)).Ok? {
      CancelSourced(d, s, n, CancelReason(s.run.termination.value.kind));
    }
  }

  lemma AcceptSourced(d: Doc, s: State, n: Id, a: Id)
    requires AllSourced(d, s) && Fits(d, s) && n in s.nodes && a in s.attempts && s.attempts[a].result.Some? && a != ""
    ensures var r := AcceptSuccess(d, s, n, a, s.attempts[a].result.value.outputs); r.Ok? ==> AllSourced(d, r.value)
  {
    hide ValidOutputs, SettledEdges, Sourced;
    var r := AcceptSuccess(d, s, n, a, s.attempts[a].result.value.outputs);
    if r.Ok? {
      SuccessSourced(d.nodes[n], s.nodes[n], s.attempts, a);
      SourcedUpdate(d, s, r.value, n);
    }
  }

  lemma FailSourced(d: Doc, s: State, n: Id, failed: Result<NodeRun>, cause: Failure, at: Time)
    requires AllSourced(d, s) && n in s.nodes && (failed.Ok? ==> Untouched(s.nodes[n], failed.value))
    ensures FailNode(s, n, failed, cause, at).Ok? ==> AllSourced(d, FailNode(s, n, failed, cause, at).value)
  {
    hide Sourced;
    if failed.Ok? {
      UntouchedSourced(d.nodes[n], s.nodes[n], failed.value, s.attempts);
      SourcedUpdate(d, s, FailNode(s, n, failed, cause, at).value, n);
    }
  }

  lemma CancelSourced(d: Doc, s: State, n: Id, reason: string)
    requires AllSourced(d, s) && n in s.nodes && s.nodes[n].Cancel(reason).Ok?
    ensures AllSourced(d, SetNode(s, n, s.nodes[n].Cancel(reason).value))
  {
    hide Sourced;
    var node := s.nodes[n].Cancel(reason).value;
    UntouchedSourced(d.nodes[n], s.nodes[n], node, s.attempts);
    SourcedUpdate(d, s, SetNode(s, n, node), n);
  }

  lemma HandleSourced(d: Doc, s: State, a: Id, at: Time)
    requires Inv(d, s) && AllSourced(d, s) && Fits(d, s) && HandleCompleted(d, s, a, at).Ok?
    ensures AllSourced(d, HandleCompleted(d, s, a, at).value)
  {
    hide Inv, AllSourced, Conclude, ConcludeWinding, Drive, RetryAs, Core, ValidDoc;
    var n, r := s.attempts[a].node, s.attempts[a].result.value;
    var node := s.nodes[n];
    if node.current != a || node.state.Terminal() || node.state.RetryWait? || node.state.Ready? {
    } else {
      InvFacts(d, s);
      AttemptFacts(d, s, a);
      ConcludeSourced(d, s, n, a, at);
      ConcludeFits(d, s, n, a, r, at);
      if s.run.termination.Some? {
        DriveSourced(d, ConcludeWinding(d, s, n, a, r).value, at);
      } else if RetryAs(d.nodes[n], node, r).Some? {
        MoveSourced(d, s, n, HandleCompleted(d, s, a, at).value.nodes[n]);
      } else {
        DriveSourced(d, Conclude(d, s, n, a, r, at).value, at);
      }
    }
  }

  lemma MoveSourced(d: Doc, s: State, n: Id, node: NodeRun)
    requires AllSourced(d, s) && n in s.nodes && Untouched(s.nodes[n], node)
    ensures AllSourced(d, SetNode(s, n, node))
  {
    hide Sourced;
    UntouchedSourced(d.nodes[n], s.nodes[n], node, s.attempts);
    SourcedUpdate(d, s, SetNode(s, n, node), n);
  }

  // Attempts that keep their results, and new ones, keep the outputs sourced.
  lemma AttemptsSourced(d: Doc, s: State, attempts: map<Id, Attempt>)
    requires AllSourced(d, s)
    requires forall a :: a in s.attempts && s.attempts[a].result.Some? ==> a in attempts && attempts[a].result == s.attempts[a].result
    ensures AllSourced(d, s.(attempts := attempts))
  {
    forall n | n in s.nodes ensures Sourced(d.nodes[n], s.nodes[n], attempts) {
      assert Sourced(d.nodes[n], s.nodes[n], s.attempts);
    }
  }

  lemma QueueSourced(d: Doc, s: State, n: Id, a: Id)
    requires AllSourced(d, s) && QueueNode(s, n, a).Ok?
    ensures AllSourced(d, QueueNode(s, n, a).value)
  {
    hide AllSourced;
    var t := QueueNode(s, n, a).value;
    AttemptsSourced(d, s, t.attempts);
    MoveSourced(d, s.(attempts := t.attempts), n, t.nodes[n]);
  }

  lemma StartSourced(d: Doc, s: State, a: Id)
    requires AllSourced(d, s) && StartAttempt(s, a).Ok? && (a in s.attempts && s.attempts[a].state.AttemptQueued? ==> s.attempts[a].result.None?)
    ensures AllSourced(d, StartAttempt(s, a).value)
  {
    hide AllSourced;
    if !s.attempts[a].state.AttemptRunning? {
      var t, n := StartAttempt(s, a).value, s.attempts[a].node;
      AttemptsSourced(d, s, t.attempts);
      MoveSourced(d, s.(attempts := t.attempts), n, t.nodes[n]);
    }
  }

  lemma RecordSourced(d: Doc, s: State, a: Id, r: AttemptResult)
    requires AllSourced(d, s) && RecordResult(s, a, r).Ok?
    ensures AllSourced(d, RecordResult(s, a, r).value.0)
  {
    hide AllSourced;
    AttemptsSourced(d, s, RecordResult(s, a, r).value.0.attempts);
  }

  lemma RetryDueSourced(d: Doc, s: State, n: Id, at: Time)
    requires AllSourced(d, s) && Fits(d, s) && RetryDue(d, s, n, at).Ok?
    ensures AllSourced(d, RetryDue(d, s, n, at).value)
  {
    hide AllSourced, Drive;
    if s.run.termination.Some? {
      DriveSourced(d, s, at);
    } else if s.nodes[n].state.RetryWait? {
      MoveSourced(d, s, n, RetryDue(d, s, n, at).value.nodes[n]);
    }
  }

  lemma StopSourced(d: Doc, s: State, intent: Intent)
    requires AllSourced(d, s) && Fits(d, s) && RequestStop(d, s, intent).Ok?
    ensures AllSourced(d, RequestStop(d, s, intent).value.0)
  {
    hide AllSourced, Drive;
    if !s.run.state.Terminal() {
      var t := s.(run := s.run.RequestTermination(intent).value.0);
      SourcedSame(d, s, t);
      DriveSourced(d, t, intent.requestedAt);
    }
  }

  // Every operation keeps every node's outputs those of its effective attempt.
  lemma ApplySourced(d: Doc, s: State, op: Op)
    requires Inv(d, s) && AllSourced(d, s)
    ensures Fits(d, s) && AllSourced(d, Apply(d, s, op))
  {
    hide Inv, AllSourced, QueueNode, StartAttempt, RecordResult, HandleCompleted, RetryDue, RequestStop;
    InvFits(d, s);
    match op
    case Queue(n, a) => if QueueNode(s, n, a).Ok? { QueueSourced(d, s, n, a); }
    case Start(a) => if StartAttempt(s, a).Ok? { QueuedHasNoResult(d, s, a); StartSourced(d, s, a); }
    case Record(a, r) => if RecordResult(s, a, r).Ok? { RecordSourced(d, s, a, r); }
    case Completed(a, at) => if HandleCompleted(d, s, a, at).Ok? { HandleSourced(d, s, a, at); }
    case Due(n, at) => if RetryDue(d, s, n, at).Ok? { RetryDueSourced(d, s, n, at); }
    case Cancel(at) =>
      var intent := Intent(CanceledKind, at, Failure(RUN_CANCELED, "run_control", "", "", ""));
      if RequestStop(d, s, intent).Ok? { StopSourced(d, s, intent); }
    case Deadline(at) =>
      var intent := Intent(TimedOutKind, at, Failure(RUN_TIMED_OUT, "run_deadline", "", "", ""));
      if RequestStop(d, s, intent).Ok? { StopSourced(d, s, intent); }
  }

  lemma QueuedHasNoResult(d: Doc, s: State, a: Id)
    requires Inv(d, s)
    ensures a in s.attempts && s.attempts[a].state.AttemptQueued? ==> s.attempts[a].result.None?
  {
    hide Inv, Core, ValidDoc, NodeOk;
    InvFacts(d, s);
    if a in s.attempts {
      AttemptFacts(d, s, a);
    }
  }

  lemma NewSourced(d: Doc, c: Command)
    requires New(d, c).Ok?
    ensures AllSourced(d, New(d, c).value)
  {
    hide ValidDoc, Driving, Inv, Drive, Seeded, ValidCommand;
    NewKeeps(d, c);
    SeededKeeps(d, c);
    DocNames(d);
    SeededShape(d, c);
    DriveSourced(d, Seeded(d, c).value, 0);
  }

  // In every state of every run.
  lemma {:induction false} SourcedAlways(d: Doc, c: Command, ops: seq<Op>, states: seq<State>, i: nat)
    requires IsRun(d, c, ops, states) && i < |states|
    ensures AllSourced(d, states[i])
  {
    hide Inv, AllSourced, Apply, New;
    if i == 0 {
      NewSourced(d, c);
    } else {
      SourcedAlways(d, c, ops, states, i - 1);
      InvAlways(d, c, ops, states, i - 1);
      assert Follows(d, states[i - 1], ops[i - 1], states[i]);
      ApplySourced(d, states[i - 1], ops[i - 1]);
    }
  }
}
