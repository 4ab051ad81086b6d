/**
 Persisting a run and restoring it: the records come back as they were, and the restored engine
 answers every later operation like the live one.  The edges are not persisted but rebuilt; where
 they differ from the live ones is described exactly.
 */
module EngineRestore {
  import opened Ids
  import opened Json
  import opened Runtime
  import opened Workflow
  import opened EngineSpec
  import opened EngineInvariants
  import opened EngineDrive
  import opened EngineSafety
  import opened EngineContinuity
  import B = Branch

  // ---------------------------------------------------------------- what is persisted

  datatype NodeEntry = NodeEntry(id: Id, record: NodeRun)
  datatype AttemptEntry = AttemptEntry(id: Id, record: Attempt)
  datatype Saved = Saved(run: Run, nodes: seq<NodeEntry>, attempts: seq<AttemptEntry>)

  // The records in ascending order of their ids.
  ghost function SnapshotState(s: State): Saved {
    ListingIn(s.nodes.Keys);
    ListingIn(s.attempts.Keys);
    Saved(s.run, NodeEntries(s.nodes, Listing(s.nodes.Keys)), AttemptEntries(s.attempts, Listing(s.attempts.Keys)))
  }

  lemma ListingIn(ids: set<Id>)
    ensures forall i :: 0 <= i < |Listing(ids)| ==> Listing(ids)[i] in ids
  {
    forall i | 0 <= i < |Listing(ids)| ensures Listing(ids)[i] in ids {
      assert Listing(ids)[i] in Elements(Listing(ids));
    }
  }

  function NodeEntries(nodes: map<Id, NodeRun>, ids: seq<Id>): (r: seq<NodeEntry>)
    requires forall i :: 0 <= i < |ids| ==> ids[i] in nodes
    ensures |r| == |ids| && forall i :: 0 <= i < |ids| ==> r[i] == NodeEntry(ids[i], nodes[ids[i]])
  {
    if ids == [] then [] else NodeEntries(nodes, ids[..|ids| - 1]) + [NodeEntry(ids[|ids| - 1], nodes[ids[|ids| - 1]])]
  }

  function AttemptEntries(attempts: map<Id, Attempt>, ids: seq<Id>): (r: seq<AttemptEntry>)
    requires forall i :: 0 <= i < |ids| ==> ids[i] in attempts
    ensures |r| == |ids| && forall i :: 0 <= i < |ids| ==> r[i] == AttemptEntry(ids[i], attempts[ids[i]])
  {
    if ids == [] then [] else AttemptEntries(attempts, ids[..|ids| - 1]) + [AttemptEntry(ids[|ids| - 1], attempts[ids[|ids| - 1]])]
  }

  // ---------------------------------------------------------------- restoring

  // The entry node may have been persisted without its output, which is the input of the run.
  function Refilled(d: Doc, run: Run, e: NodeEntry): NodeRun {
    if e.id == d.entry && e.record.state.Succeeded? && e.record.outputs == map[]
    then e.record.(outputs := map["workflow_input" := run.command.input])
    else e.record
  }

  function NodesOf(d: Doc, run: Run, entries: seq<NodeEntry>): map<Id, NodeRun> {
    if entries == [] then map[]
    else
      var last := entries[|entries| - 1];
      NodesOf(d, run, entries[..|entries| - 1])[last.id := Refilled(d, run, last)]
  }

  function AttemptsFrom(entries: seq<AttemptEntry>): map<Id, Attempt> {
    if entries == [] then map[]
    else
      var last := entries[|entries| - 1];
      AttemptsFrom(entries[..|entries| - 1])[last.id := last.record]
  }

  ghost predicate UsableNode(d: Doc, run: Run, e: NodeEntry) {
    e.id in d.nodes && e.record.kind == d.nodes[e.id].Kind() && RestoreNode(Refilled(d, run, e)).Ok?
  }

  ghost predicate UsableNodes(d: Doc, run: Run, entries: seq<NodeEntry>) {
    && (forall i :: 0 <= i < |entries| ==> UsableNode(d, run, entries[i]))
    && (forall i, j :: 0 <= i < j < |entries| ==> entries[i].id != entries[j].id)
  }

  ghost predicate UsableAttempts(nodes: map<Id, NodeRun>, entries: seq<AttemptEntry>) {
    && (forall i :: 0 <= i < |entries| ==>
          entries[i].id != "" && RestoreAttempt(entries[i].record).Ok? && entries[i].record.node in nodes)
    && (forall i, j :: 0 <= i < j < |entries| ==> entries[i].id != entries[j].id)
  }

  // The current attempt of every node is there and belongs to it.
  ghost predicate UsableCurrents(nodes: map<Id, NodeRun>, attempts: map<Id, Attempt>) {
    forall n :: n in nodes && nodes[n].current != "" ==> nodes[n].current in attempts && attempts[nodes[n].current].node == n
  }

  // The edges read off the settled nodes.
  function Rebuilt(d: Doc, nodes: map<Id, NodeRun>): (r: seq<EdgeState>)
    ensures |r| == |d.edges|
  {
    seq(|d.edges|, i requires 0 <= i < |d.edges| =>
      var source := d.edges[i].source;
      if source in nodes && nodes[source].state.Terminal() then SettledAs(d.edges[i], nodes[source].state, nodes[source].route) else EdgePending)
  }

  ghost function RestoreState(d: Doc, saved: Saved): Result<State> {
    if !ValidDoc(d) || RestoreRun(saved.run).Err? || |saved.nodes| != |d.nodes| || !UsableNodes(d, saved.run, saved.nodes) then Err
    else
      var nodes := NodesOf(d, saved.run, saved.nodes);
      var attempts := AttemptsFrom(saved.attempts);
      if !UsableAttempts(nodes, saved.attempts) || !UsableCurrents(nodes, attempts) then Err
      else Ok(State(saved.run, nodes, attempts, Rebuilt(d, nodes)))
  }

  // ---------------------------------------------------------------- records survive

  lemma {:induction false} EntriesRoundTrip(d: Doc, run: Run, nodes: map<Id, NodeRun>, ids: seq<Id>)
    requires Ascending(ids) && forall i :: 0 <= i < |ids| ==> ids[i] in nodes && Refilled(d, run, NodeEntry(ids[i], nodes[ids[i]])) == nodes[ids[i]]
    ensures var m := NodesOf(d, run, NodeEntries(nodes, ids));
            m.Keys == Elements(ids) && forall n :: n in m ==> n in nodes && m[n] == nodes[n]
  {
    hide Refilled;
    if ids != [] {
      var rest, last := ids[..|ids| - 1], ids[|ids| - 1];
      var e := NodeEntries(nodes, ids);
      assert e[..|e| - 1] == NodeEntries(nodes, rest);
      assert e[|e| - 1] == NodeEntry(last, nodes[last]);
      EntriesRoundTrip(d, run, nodes, rest);
      hide NodeEntries;
      assert Elements(ids) == Elements(rest) + {last};
    }
  }

  lemma {:induction false} AttemptsRoundTrip(attempts: map<Id, Attempt>, ids: seq<Id>)
    requires Ascending(ids) && forall i :: 0 <= i < |ids| ==> ids[i] in attempts
    ensures var m := AttemptsFrom(AttemptEntries(attempts, ids));
            m.Keys == Elements(ids) && forall n :: n in m ==> n in attempts && m[n] == attempts[n]
  {
    if ids != [] {
      var rest, last := ids[..|ids| - 1], ids[|ids| - 1];
      var e := AttemptEntries(attempts, ids);
      assert e[..|e| - 1] == AttemptEntries(attempts, rest);
      AttemptsRoundTrip(attempts, rest);
      assert Elements(ids) == Elements(rest) + {last};
    }
  }

  // The entry node holds its output from the start, whatever happens to the run.
  ghost predicate EntryKept(d: Doc, s: State) {
    d.entry in s.nodes && s.nodes[d.entry].state.Succeeded? && s.nodes[d.entry].outputs != map[]
  }

  lemma RunRestores(d: Doc, s: State)
    requires Inv(d, s)
    ensures RestoreRun(s.run) == Ok(s.run)
  {
    hide Inv, ValidDoc, Core, Driving, Falling, Wound;
    InvFacts(d, s);
    RunFacts(d, s);
    DocNames(d);
  }

  lemma NodeRestores(def: NodeDef, n: Id, node: NodeRun, attempts: map<Id, Attempt>)
    requires NodeOk(def, n, node, attempts)
    ensures RestoreNode(node) == Ok(node) && node.kind == def.Kind()
    ensures node.current != "" ==> node.current in attempts && attempts[node.current].node == n
  {
  }

  lemma AttemptRestores(nodes: map<Id, NodeRun>, a: Id, attempt: Attempt)
    requires AttemptOk(nodes, a, attempt)
    ensures a != "" && RestoreAttempt(attempt) == Ok(attempt) && attempt.node in nodes
  {
  }

  // Record n of nodes can be restored as it is.
  ghost predicate Restorable(d: Doc, run: Run, nodes: map<Id, NodeRun>, n: Id)
    requires n in nodes
  {
    UsableNode(d, run, NodeEntry(n, nodes[n])) && Refilled(d, run, NodeEntry(n, nodes[n])) == nodes[n]
  }

  lemma EntriesUsable(d: Doc, run: Run, nodes: map<Id, NodeRun>, ids: seq<Id>)
    requires Ascending(ids) && Elements(ids) == nodes.Keys && (forall i :: 0 <= i < |ids| ==> ids[i] in nodes)
    requires forall n :: n in nodes ==> Restorable(d, run, nodes, n)
    ensures var entries := NodeEntries(nodes, ids);
            |entries| == |nodes.Keys| && UsableNodes(d, run, entries) && NodesOf(d, run, entries) == nodes
  {
    hide UsableNode, Refilled, NodesOf, NodeEntries, Ascending;
    var entries := NodeEntries(nodes, ids);
    AscendingSize(ids);
    AscendingDistinct(ids);
    forall i | 0 <= i < |ids| ensures UsableNode(d, run, entries[i]) && Refilled(d, run, NodeEntry(ids[i], nodes[ids[i]])) == nodes[ids[i]] {
      assert Restorable(d, run, nodes, ids[i]);
    }
    EntriesRoundTrip(d, run, nodes, ids);
    assert NodesOf(d, run, entries) == nodes;
  }

  lemma AscendingDistinct(ids: seq<Id>)
    requires Ascending(ids)
    ensures NoDuplicates(ids)
  {
  }

  lemma AllRestorable(d: Doc, s: State)
    requires Inv(d, s) && EntryKept(d, s)
    ensures forall n :: n in s.nodes ==> Restorable(d, s.run, s.nodes, n)
    ensures UsableCurrents(s.nodes, s.attempts)
  {
    hide Inv, ValidDoc, Core, Driving, Falling, Wound, NodeOk, RestoreNode;
    InvFacts(d, s);
    forall n | n in s.nodes
      ensures Restorable(d, s.run, s.nodes, n)
      ensures s.nodes[n].current != "" ==> s.nodes[n].current in s.attempts && s.attempts[s.nodes[n].current].node == n
    {
      CoreFacts(d, s, n);
      NodeRestores(d.nodes[n], n, s.nodes[n], s.attempts);
    }
  }

  lemma NodesRestore(d: Doc, s: State)
    requires Inv(d, s) && EntryKept(d, s)
    ensures var saved := SnapshotState(s);
            |saved.nodes| == |d.nodes| && UsableNodes(d, s.run, saved.nodes) && NodesOf(d, s.run, saved.nodes) == s.nodes
  {
    hide Inv, EntryKept, Restorable, UsableNodes, UsableCurrents, NodeEntries, AttemptEntries, NodesOf;
    InvFits(d, s);
    ListingIn(s.nodes.Keys);
    AllRestorable(d, s);
    EntriesUsable(d, s.run, s.nodes, Listing(s.nodes.Keys));
  }

  lemma {:induction false} AscendingSize(ids: seq<Id>)
    requires Ascending(ids)
    ensures |ids| == |Elements(ids)|
  {
    if ids != [] {
      AscendingSize(ids[..|ids| - 1]);
      var last := ids[|ids| - 1];
      assert Elements(ids) == Elements(ids[..|ids| - 1]) + {last};
    }
  }

  ghost predicate RestorableAttempt(nodes: map<Id, NodeRun>, a: Id, attempt: Attempt) {
    a != "" && RestoreAttempt(attempt) == Ok(attempt) && attempt.node in nodes
  }

  lemma AttemptEntriesUsable(nodes: map<Id, NodeRun>, attempts: map<Id, Attempt>, ids: seq<Id>)
    requires Ascending(ids) && Elements(ids) == attempts.Keys && (forall i :: 0 <= i < |ids| ==> ids[i] in attempts)
    requires forall a :: a in attempts ==> RestorableAttempt(nodes, a, attempts[a])
    ensures var entries := AttemptEntries(attempts, ids); UsableAttempts(nodes, entries) && AttemptsFrom(entries) == attempts
  {
    hide RestoreAttempt, AttemptsFrom, AttemptEntries, Ascending;
    AscendingDistinct(ids);
    AttemptsRoundTrip(attempts, ids);
    var entries := AttemptEntries(attempts, ids);
    forall i | 0 <= i < |ids|
      ensures entries[i].id != "" && RestoreAttempt(entries[i].record).Ok? && entries[i].record.node in nodes
    {
      assert RestorableAttempt(nodes, ids[i], attempts[ids[i]]);
    }
    assert AttemptsFrom(entries) == attempts;
  }

  lemma AttemptsRestore(d: Doc, s: State)
    requires Inv(d, s)
    ensures var saved := SnapshotState(s); UsableAttempts(s.nodes, saved.attempts) && AttemptsFrom(saved.attempts) == s.attempts
  {
    hide Inv, Core, RestoreAttempt, UsableAttempts, NodeEntries, AttemptEntries, AttemptsFrom, AttemptOk, NodeOk;
    InvFacts(d, s);
    ListingIn(s.attempts.Keys);
    forall a | a in s.attempts ensures RestorableAttempt(s.nodes, a, s.attempts[a]) {
      AttemptFacts(d, s, a);
      AttemptRestores(s.nodes, a, s.attempts[a]);
    }
    AttemptEntriesUsable(s.nodes, s.attempts, Listing(s.attempts.Keys));
  }

  // The same records; the same edges too unless the run is terminating.
  ghost predicate Twin(s: State, t: State) {
    && t == s.(edges := t.edges) && |t.edges| == |s.edges|
    && (s.run.termination.None? ==> t == s)
  }

  // Restoring the snapshot of a state succeeds and gives back every record; while the run is not
  // terminating it gives back the edges as well.
  lemma RestoreGivesTwin(d: Doc, s: State)
    requires Inv(d, s) && EntryKept(d, s)
    ensures RestoreState(d, SnapshotState(s)) == Ok(s.(edges := Rebuilt(d, s.nodes)))
    ensures Twin(s, s.(edges := Rebuilt(d, s.nodes)))
  {
    hide Inv, ValidDoc, Core, Driving, Falling, Wound, UsableNodes, UsableAttempts, UsableCurrents, EntryKept, RestoreRun, Restorable,
         NodesOf, AttemptsFrom, NodeEntries, AttemptEntries;
    InvFacts(d, s);
    RunRestores(d, s);
    AllRestorable(d, s);
    NodesRestore(d, s);
    AttemptsRestore(d, s);
    if s.run.termination.None? {
      RebuiltIsLive(d, s);
    }
  }

  lemma RebuiltIsLive(d: Doc, s: State)
    requires Driving(d, s)
    ensures Rebuilt(d, s.nodes) == s.edges
  {
    hide Core, Placed, NodeFlow, RunFlow;
    forall i | 0 <= i < |d.edges| ensures Rebuilt(d, s.nodes)[i] == s.edges[i] {
      assert s.edges[i] == Projected(d, s, i);
    }
  }

  // The restored engine is as good as the live one.
  lemma TwinIsSound(d: Doc, s: State, t: State)
    requires Inv(d, s) && Twin(s, t)
    ensures Inv(d, t)
  {
    hide ValidDoc, Flow;
    InvSplit(d, s);
    if s.run.termination.Some? {
      TwinCore(d, s, t);
    }
  }

  lemma TwinCore(d: Doc, s: State, t: State)
    requires Core(d, s) && Twin(s, t)
    ensures Core(d, t)
  {
    hide NodeOk, AttemptOk;
    forall a | a in t.attempts ensures AttemptOk(t.nodes, a, t.attempts[a]) {
      assert AttemptOk(s.nodes, a, s.attempts[a]);
    }
  }

  lemma SnapshotsAgree(s: State, t: State)
    requires Twin(s, t)
    ensures SnapshotState(t) == SnapshotState(s)
  {
  }

  // ---------------------------------------------------------------- later operations

  ghost predicate Alike(s: State, t: State) {
    t == s.(edges := t.edges) && |t.edges| == |s.edges|
  }

  ghost predicate BothAlike(r: Result<State>, q: Result<State>) {
    r.Ok? == q.Ok? && (r.Ok? ==> Alike(r.value, q.value))
  }

  lemma SettleAlike(d: Doc, s: State, t: State, n: Id, node: NodeRun)
    requires Fits(d, s) && Fits(d, t) && Alike(s, t) && n in s.nodes
    ensures Alike(Settle(d, SetNode(s, n, node), n, ""), Settle(d, SetNode(t, n, node), n, ""))
  {
    hide SettledAs;
  }

  lemma {:induction false} SweepAlike(d: Doc, s: State, t: State, ids: seq<Id>, i: nat, reason: string)
    requires Fits(d, s) && Fits(d, t) && Alike(s, t) && i <= |ids| && forall k :: 0 <= k < |ids| ==> ids[k] in d.nodes
    ensures BothAlike(Sweep(d, s, ids, i, reason), Sweep(d, t, ids, i, reason))
    decreases |ids| - i
  {
    hide Settle;
    if i < |ids| {
      var n := ids[i];
      if s.nodes[n].state.Terminal() || Outstanding(s, n) {
        SweepAlike(d, s, t, ids, i + 1, reason);
      } else if s.nodes[n].Cancel(reason).Ok? {
        var node := s.nodes[n].Cancel(reason).value;
        SettleAlike(d, s, t, n, node);
        SettleFits(d, s, n, node);
        SettleFits(d, t, n, node);
        SweepAlike(d, Settle(d, SetNode(s, n, node), n, ""), Settle(d, SetNode(t, n, node), n, ""), ids, i + 1, reason);
      }
    }
  }

  lemma SettleFits(d: Doc, s: State, n: Id, node: NodeRun)
    requires Fits(d, s) && n in s.nodes
    ensures Fits(d, Settle(d, SetNode(s, n, node), n, ""))
  {
  }

  // Winding up never looks at the edges.
  lemma DriveAlike(d: Doc, s: State, t: State, at: Time)
    requires Fits(d, s) && Fits(d, t) && Alike(s, t) && s.run.termination.Some?
    ensures BothAlike(Drive(d, s, at), Drive(d, t, at))
  {
    hide Sweep;
    ListingInside(d);
    SweepAlike(d, s, t, Listing(d.nodes.Keys), 0, CancelReason(s.run.termination.value.kind));
  }

  lemma WindingAlike(d: Doc, s: State, t: State, n: Id, a: Id, r: AttemptResult)
    requires Fits(d, s) && Fits(d, t) && Alike(s, t) && n in s.nodes && s.run.termination.Some?
    ensures BothAlike(ConcludeWinding(d, s, n, a, r), ConcludeWinding(d, t, n, a, r))
    ensures ConcludeWinding(d, s, n, a, r).Ok? ==> ConcludeWinding(d, s, n, a, r).value.run == s.run
  {
    hide ValidOutputs, SettledEdges;
  }

  lemma HandleAlike(d: Doc, s: State, t: State, a: Id, at: Time)
    requires Fits(d, s) && Fits(d, t) && Alike(s, t) && s.run.termination.Some?
    ensures BothAlike(HandleCompleted(d, s, a, at), HandleCompleted(d, t, a, at))
  {
    hide Drive, ConcludeWinding, Conclude;
    if a in s.attempts && s.attempts[a].result.Some? && s.attempts[a].node in s.nodes {
      var n, r := s.attempts[a].node, s.attempts[a].result.value;
      WindingAlike(d, s, t, n, a, r);
      if ConcludeWinding(d, s, n, a, r).Ok? {
        ConcludeFits(d, s, n, a, r, at);
        ConcludeFits(d, t, n, a, r, at);
        DriveAlike(d, ConcludeWinding(d, s, n, a, r).value, ConcludeWinding(d, t, n, a, r).value, at);
      }
    }
  }

  lemma StopAlike(d: Doc, s: State, t: State, intent: Intent)
    requires Fits(d, s) && Fits(d, t) && Alike(s, t) && s.run.termination.Some?
    ensures var r, q := RequestStop(d, s, intent), RequestStop(d, t, intent);
            r.Ok? == q.Ok? && (r.Ok? ==> Alike(r.value.0, q.value.0))
  {
    hide Drive;
    if !s.run.state.Terminal() && s.run.RequestTermination(intent).Ok? {
      var run := s.run.RequestTermination(intent).value.0;
      DriveAlike(d, s.(run := run), t.(run := run), intent.requestedAt);
    }
  }

  // While a run is terminating, no operation looks at the edges.
  lemma ApplyAlike(d: Doc, s: State, t: State, op: Op)
    requires Fits(d, s) && Fits(d, t) && Alike(s, t) && s.run.termination.Some?
    ensures Alike(Apply(d, s, op), Apply(d, t, op))
  {
    hide HandleCompleted, RequestStop, Drive;
    match op
    case Queue(n, a) =>
    case Start(a) =>
    case Record(a, r) =>
    case Completed(a, at) => HandleAlike(d, s, t, a, at);
    case Due(n, at) => DriveAlike(d, s, t, at);
    case Cancel(at) => StopAlike(d, s, t, Intent(CanceledKind, at, Failure(RUN_CANCELED, "run_control", "", "", "")));
    case Deadline(at) => StopAlike(d, s, t, Intent(TimedOutKind, at, Failure(RUN_TIMED_OUT, "run_deadline", "", "", "")));
  }

  lemma ApplyTwin(d: Doc, s: State, t: State, op: Op)
    requires Inv(d, s) && Twin(s, t)
    ensures Fits(d, s) && Fits(d, t) && Twin(Apply(d, s, op), Apply(d, t, op)) && Inv(d, Apply(d, s, op))
  {
    hide Inv, Apply;
    InvFits(d, s);
    ApplyKeeps(d, s, op);
    if s.run.termination.Some? {
      ApplyAlike(d, s, t, op);
    }
  }

  // The states an engine goes through from any starting point.
  ghost predicate IsTrace(d: Doc, ops: seq<Op>, states: seq<State>) {
    |states| == |ops| + 1 && forall i :: 0 <= i < |ops| ==> Follows(d, states[i], ops[i], states[i + 1])
  }

  lemma {:induction false} TracesAgree(d: Doc, ops: seq<Op>, live: seq<State>, restored: seq<State>, i: nat)
    requires IsTrace(d, ops, live) && IsTrace(d, ops, restored) && Inv(d, live[0]) && Twin(live[0], restored[0]) && i < |live|
    ensures Twin(live[i], restored[i]) && Inv(d, live[i])
  {
    hide Inv, Apply, Twin;
    if i > 0 {
      TracesAgree(d, ops, live, restored, i - 1);
      assert Follows(d, live[i - 1], ops[i - 1], live[i]) && Follows(d, restored[i - 1], ops[i - 1], restored[i]);
      ApplyTwin(d, live[i - 1], restored[i - 1], ops[i - 1]);
    }
  }

  lemma EntryKeptByApply(d: Doc, s: State, op: Op)
    requires Inv(d, s) && EntryKept(d, s)
    ensures Fits(d, s) && EntryKept(d, Apply(d, s, op))
  {
    hide Inv, Apply;
    SettledIsFinal(d, s, op);
  }

  lemma EntryKeptByNew(d: Doc, c: Command)
    requires New(d, c).Ok?
    ensures EntryKept(d, New(d, c).value)
  {
    hide ValidDoc, Driving, Inv, Drive, Seeded, ValidCommand;
    NewKeeps(d, c);
    SeededKeeps(d, c);
    DocNames(d);
    SeededShape(d, c);
    DriveContinues(d, Seeded(d, c).value, 0);
    assert Driven(Seeded(d, c).value.nodes[d.entry], New(d, c).value.nodes[d.entry]);
    assert "workflow_input" in New(d, c).value.nodes[d.entry].outputs;
  }

  lemma {:induction false} EntryAlwaysKept(d: Doc, c: Command, ops: seq<Op>, states: seq<State>, i: nat)
    requires IsRun(d, c, ops, states) && i < |states|
    ensures EntryKept(d, states[i])
  {
    hide Inv, Apply, New, EntryKept;
    if i == 0 {
      EntryKeptByNew(d, c);
    } else {
      EntryAlwaysKept(d, c, ops, states, i - 1);
      InvAlways(d, c, ops, states, i - 1);
      assert Follows(d, states[i - 1], ops[i - 1], states[i]);
      EntryKeptByApply(d, states[i - 1], ops[i - 1]);
    }
  }

  // In any state a run reaches, restoring the snapshot succeeds; while the run is not terminating the
  // restored engine is the live one, edges included.
  lemma RestoreAlwaysSucceeds(d: Doc, c: Command, ops: seq<Op>, states: seq<State>, i: nat)
    requires IsRun(d, c, ops, states) && i < |states|
    ensures var r := RestoreState(d, SnapshotState(states[i]));
            r.Ok? && Twin(states[i], r.value) && SnapshotState(r.value) == SnapshotState(states[i]) && Inv(d, r.value)
  {
    hide IsRun, Inv, EntryKept, RestoreState, SnapshotState, Twin;
    InvAlways(d, c, ops, states, i);
    EntryAlwaysKept(d, c, ops, states, i);
    RestoreGivesTwin(d, states[i]);
    TwinIsSound(d, states[i], RestoreState(d, SnapshotState(states[i])).value);
    SnapshotsAgree(states[i], RestoreState(d, SnapshotState(states[i])).value);
  }

  // An engine stopped at any point and restored from its snapshot goes through the same snapshots as
  // the engine that was never stopped, whatever operations follow.
  lemma RestoredRunsAgree(
      d: Doc, c: Command, ops: seq<Op>, states: seq<State>, i: nat,
      later: seq<Op>, live: seq<State>, restored: seq<State>, j: nat)
    requires IsRun(d, c, ops, states) && i < |states|
    requires IsTrace(d, later, live) && live[0] == states[i]
    requires IsTrace(d, later, restored) && RestoreState(d, SnapshotState(states[i])) == Ok(restored[0])
    requires j < |live|
    ensures SnapshotState(restored[j]) == SnapshotState(live[j])
    ensures live[j].run.termination.None? ==> restored[j] == live[j]
  {
    hide IsRun, Inv, RestoreState, SnapshotState, IsTrace;
    InvAlways(d, c, ops, states, i);
    RestoreAlwaysSucceeds(d, c, ops, states, i);
    TraceLength(d, later, live);
    TraceLength(d, later, restored);
    TracesAgree(d, later, live, restored, j);
    SnapshotsAgree(live[j], restored[j]);
  }

  lemma TraceLength(d: Doc, ops: seq<Op>, states: seq<State>)
    requires IsTrace(d, ops, states)
    ensures |states| == |ops| + 1
  {
  }

  // ---------------------------------------------------------------- where the edges differ

  // Edge i of the live engine is what its source says, or still pending although its source ended badly.
  ghost predicate Lags(d: Doc, s: State, i: nat)
    requires i < |d.edges| && |s.edges| == |d.edges|
  {
    && d.edges[i].source in s.nodes
    && (s.edges[i] == Projected(d, s, i) || (s.edges[i].EdgePending? && EndedBadly(s.nodes[d.edges[i].source])))
  }

  ghost predicate Lagging(d: Doc, s: State) {
    Fits(d, s) && forall i :: 0 <= i < |d.edges| ==> Lags(d, s, i)
  }

  ghost predicate Behind(d: Doc, s: State, i: nat)
    requires i < |d.edges| && |s.edges| == |d.edges|
  {
    d.edges[i].source in s.nodes && s.edges[i].EdgePending? && EndedBadly(s.nodes[d.edges[i].source])
  }

  // The live edges are the rebuilt ones except exactly for pending edges whose source ended badly,
  // which are rebuilt as inactive.
  lemma EdgesDifferExactly(d: Doc, s: State)
    requires Lagging(d, s)
    ensures forall i :: 0 <= i < |d.edges| ==>
              Rebuilt(d, s.nodes)[i] == if Behind(d, s, i) then EdgeInactive else s.edges[i]
    ensures Rebuilt(d, s.nodes) == s.edges <==> forall i :: 0 <= i < |d.edges| ==> !Behind(d, s, i)
  {
    forall i | 0 <= i < |d.edges| ensures Rebuilt(d, s.nodes)[i] == if Behind(d, s, i) then EdgeInactive else s.edges[i] {
      assert Lags(d, s, i);
    }
  }

  lemma DrivingLags(d: Doc, s: State)
    requires Driving(d, s)
    ensures Lagging(d, s)
  {
    hide Core, Placed, NodeFlow, RunFlow;
    DrivingFits(d, s);
  }

  // A node that ends badly without settling its edges, or settles them, keeps the others as they were.
  lemma LagUpdate(d: Doc, s: State, t: State, n: Id)
    requires Lagging(d, s) && Fits(d, t) && n in s.nodes && t.nodes == s.nodes[n := t.nodes[n]] && !s.nodes[n].state.Terminal()
    requires (t.edges == s.edges && EndedBadly(t.nodes[n])) ||
             (t.nodes[n].state.Terminal() && t.edges == SettledEdges(d, t.(edges := s.edges), n, t.nodes[n].route))
    ensures Lagging(d, t)
  {
    forall i | 0 <= i < |d.edges| ensures Lags(d, t, i) {
      assert Lags(d, s, i);
    }
  }

  lemma LagSame(d: Doc, s: State, t: State)
    requires Lagging(d, s) && t.nodes == s.nodes && t.edges == s.edges
    ensures Lagging(d, t)
  {
    forall i | 0 <= i < |d.edges| ensures Lags(d, t, i) {
      assert Lags(d, s, i);
    }
  }

  lemma {:induction false} SweepLags(d: Doc, s: State, ids: seq<Id>, i: nat, reason: string)
    requires Lagging(d, s) && i <= |ids| && forall k :: 0 <= k < |ids| ==> ids[k] in d.nodes
    ensures Fits(d, s)
    ensures var r := Sweep(d, s, ids, i, reason); r.Ok? ==> Lagging(d, r.value)
    decreases |ids| - i
  {
    hide Outstanding, Lagging;
    LaggingFits(d, s);
    if i < |ids| {
      var n := ids[i];
      if s.nodes[n].state.Terminal() || Outstanding(s, n) {
        SweepLags(d, s, ids, i + 1, reason);
      } else if s.nodes[n].Cancel(reason).Ok? {
        var t := Settle(d, SetNode(s, n, s.nodes[n].Cancel(reason).value), n, "");
        CanceledEdges(d, SetNode(s, n, s.nodes[n].Cancel(reason).value), n);
        LagUpdate(d, s, t, n);
        SweepLags(d, t, ids, i + 1, reason);
      }
    }
  }

  lemma LaggingFits(d: Doc, s: State)
    requires Lagging(d, s)
    ensures Fits(d, s)
  {
  }

  // The route does not matter to the edges of a node that did not succeed.
  lemma CanceledEdges(d: Doc, s: State, n: Id)
    requires Fits(d, s) && n in s.nodes && !s.nodes[n].state.Succeeded?
    ensures SettledEdges(d, s, n, "") == SettledEdges(d, s, n, s.nodes[n].route)
  {
  }

  // A visit that fails the node leaves its edges pending.
  lemma TripLags(d: Doc, s: State, n: Id, at: Time)
    requires Driving(d, s) && Fits(d, s) && n in s.nodes && Visit(d, s, n, at).Tripped?
    ensures Lagging(d, Visit(d, s, n, at).s)
  {
    hide Driving, Lagging, Fire;
    DrivingLags(d, s);
    VisitShape(d, s, n, at);
    var u := SetNode(s, n, s.nodes[n].Activate().value);
    FireTrips(d, u, n, at);
    LagUpdate(d, s, Visit(d, s, n, at).s, n);
  }

  lemma FireTrips(d: Doc, s: State, n: Id, at: Time)
    requires Fits(d, s) && n in s.nodes
    ensures var r := Fire(d, s, n, at); r.Tripped? ==> n in r.s.nodes && EndedBadly(r.s.nodes[n]) && r.s.edges == s.edges
  {
    hide ResolveInputs, B.Evaluate, OthersTerminal, SettledEdges, CompleteWorkflowSuccess;
  }

  lemma {:induction false} PassLags(d: Doc, s: State, ids: seq<Id>, i: nat, at: Time)
    requires Driving(d, s) && Fits(d, s) && ValidIds(d, ids) && i <= |ids| && GoodTime(s, at)
    ensures var r := Pass(d, s, ids, i, at); !r.Broken? ==> Lagging(d, r.s)
    decreases |ids| - i
  {
    hide Driving, Falling, Visit, ValidNode, Lagging;
    DrivingLags(d, s);
    if i < |ids| {
      VisitKeeps(d, s, ids[i], at);
      VisitFits(d, s, ids[i], at);
      VisitCommand(d, s, ids[i], at);
      var v := Visit(d, s, ids[i], at);
      if v.Tripped? {
        TripLags(d, s, ids[i], at);
      } else {
        PassLags(d, v.s, ids, i + 1, at);
      }
    }
  }

  lemma {:induction false} DriveLags(d: Doc, s: State, at: Time)
    requires ValidDoc(d) && (Driving(d, s) || (Falling(d, s) && Lagging(d, s))) && GoodTime(s, at) && Fits(d, s)
    ensures var r := Drive(d, s, at); r.Ok? ==> Lagging(d, r.value)
    decreases Pendings(s)
  {
    hide ValidDoc, Driving, Falling, Lagging, Pass, Sweep, ValidIds;
    DocFacts(d);
    var ids := Listing(d.nodes.Keys);
    ListingInside(d);
    if s.run.termination.Some? {
      if Driving(d, s) { DrivingFits(d, s); }
      SweepLags(d, s, ids, 0, CancelReason(s.run.termination.value.kind));
      var t := Sweep(d, s, ids, 0, CancelReason(s.run.termination.value.kind));
      if t.Ok? && Wind(d, s).Ok? {
        LagSame(d, t.value, Wind(d, s).value);
      }
    } else {
      if Falling(d, s) { FallingFacts(d, s); }
      PassKeeps(d, s, ids, 0, at);
      PassLags(d, s, ids, 0, at);
      PassFits(d, s, ids, 0, at);
      var p := Pass(d, s, ids, 0, at);
      if p.Tripped? || (p.Moved? && !p.s.run.state.Terminal()) {
        DriveLags(d, p.s, at);
      }
    }
  }

  // All edges out of a task carry no route.
  lemma TaskEdges(d: Doc, s: State, n: Id)
    requires ValidDoc(d) && Fits(d, s) && n in s.nodes && d.nodes[n].op.TaskOp?
    ensures SettledEdges(d, s, n, "") == SettledEdges(d, s, n, s.nodes[n].route)
  {
    hide ValidNode;
    forall i | 0 <= i < |d.edges| && d.edges[i].source == n ensures d.edges[i].activation.Always? {
      assert ValidEdge(d, d.edges[i]);
    }
  }

  lemma WindingLags(d: Doc, s: State, n: Id, a: Id, r: AttemptResult)
    requires ValidDoc(d) && Lagging(d, s) && Fits(d, s) && n in s.nodes && s.run.termination.Some? && d.nodes[n].op.TaskOp?
    requires !s.nodes[n].state.Terminal()
    ensures ConcludeWinding(d, s, n, a, r).Ok? ==> Lagging(d, ConcludeWinding(d, s, n, a, r).value)
  {
    hide ValidDoc, Lagging, ValidOutputs, SettledEdges;
    if ConcludeWinding(d, s, n, a, r).Ok? {
      var t := ConcludeWinding(d, s, n, a, r).value;
      if t.nodes[n].state.Succeeded? {
        TaskEdges(d, SetNode(s, n, t.nodes[n]), n);
      }
      LagUpdate(d, s, t, n);
    }
  }

  // A completion that fails its node leaves the edges of the node pending.
  lemma FailLags(d: Doc, s: State, n: Id, failed: Result<NodeRun>, cause: Failure, at: Time)
    requires Lagging(d, s) && n in s.nodes && !s.nodes[n].state.Terminal() && (failed.Ok? ==> EndedBadly(failed.value))
    ensures FailNode(s, n, failed, cause, at).Ok? ==> Lagging(d, FailNode(s, n, failed, cause, at).value)
  {
    hide Lagging;
    LaggingFits(d, s);
    if failed.Ok? {
      LagUpdate(d, s, FailNode(s, n, failed, cause, at).value, n);
    }
  }

  lemma ConcludeLags(d: Doc, s: State, n: Id, a: Id, r: AttemptResult, at: Time)
    requires Lagging(d, s) && Fits(d, s) && n in s.nodes && !s.nodes[n].state.Terminal()
    requires ValidDoc(d) && d.nodes[n].op.TaskOp?
    ensures Conclude(d, s, n, a, r, at).Ok? ==> Lagging(d, Conclude(d, s, n, a, r, at).value)
  {
    hide ValidDoc, Lagging, FailNode, AcceptSuccess;
    AcceptLags(d, s, n, a, r.outputs);
    forall failed: Result<NodeRun>, cause | failed.Ok? ==> EndedBadly(failed.value)
      ensures FailNode(s, n, failed, cause, at).Ok? ==> Lagging(d, FailNode(s, n, failed, cause, at).value)
    {
      FailLags(d, s, n, failed, cause, at);
    }
  }

  lemma AcceptLags(d: Doc, s: State, n: Id, a: Id, values: map<string, Value>)
    requires ValidDoc(d) && Lagging(d, s) && Fits(d, s) && n in s.nodes && !s.nodes[n].state.Terminal() && d.nodes[n].op.TaskOp?
    ensures AcceptSuccess(d, s, n, a, values).Ok? ==> Lagging(d, AcceptSuccess(d, s, n, a, values).value)
  {
    hide ValidDoc, Lagging, ValidOutputs, SettledEdges;
    if AcceptSuccess(d, s, n, a, values).Ok? {
      var t := AcceptSuccess(d, s, n, a, values).value;
      TaskEdges(d, SetNode(s, n, t.nodes[n]), n);
      LagUpdate(d, s, t, n);
    }
  }

  lemma HandleLags(d: Doc, s: State, a: Id, at: Time)
    requires Inv(d, s) && Lagging(d, s) && Fits(d, s) && HandleCompleted(d, s, a, at).Ok?
    ensures Lagging(d, HandleCompleted(d, s, a, at).value)
  {
    hide Inv, ValidDoc, Lagging, Driving, Falling, Core, Wound, NodeOk, Concluding, Conclude, ConcludeWinding, Drive, OpenIn, RetryAs;
    InvFacts(d, s);
    HandleKeeps(d, s, a, at);
    ConcludingFacts(d, s, a);
    var n, r := s.attempts[a].node, s.attempts[a].result.value;
    var node := s.nodes[n];
    if node.current != a || node.state.Terminal() || node.state.RetryWait? || node.state.Ready? {
    } else {
      ConcludingIsCurrent(d.nodes[n], n, node, s.attempts, a);
      OpenIsTask(d, s, n);
      ConcludeFits(d, s, n, a, r, at);
      if s.run.termination.Some? {
        StillRunning(d, s, n);
        ConcludeWindingKeeps(d, s, a);
        WindingLags(d, s, n, a, r);
        DriveLags(d, ConcludeWinding(d, s, n, a, r).value, at);
      } else if RetryAs(d.nodes[n], node, r).Some? {
        InvFacts(d, HandleCompleted(d, s, a, at).value);
        DrivingLags(d, HandleCompleted(d, s, a, at).value);
      } else {
        OpenFromInv(d, s, a);
        ConcludeKeeps(d, s, a, at);
        ConcludeLags(d, s, n, a, r, at);
        DriveLags(d, Conclude(d, s, n, a, r, at).value, at);
      }
    }
  }

  lemma StopLags(d: Doc, s: State, intent: Intent)
    requires Inv(d, s) && Lagging(d, s) && Fits(d, s) && intent.cause.code != "" && RequestStop(d, s, intent).Ok?
    ensures Lagging(d, RequestStop(d, s, intent).value.0)
  {
    hide Inv, ValidDoc, Lagging, Driving, Falling, Core, Wound, Drive;
    InvFacts(d, s);
    RequestStopKeeps(d, s, intent);
    if !s.run.state.Terminal() {
      var t := s.(run := s.run.RequestTermination(intent).value.0);
      RequestedIsFalling(d, s, intent);
      LagSame(d, s, t);
      DriveLags(d, t, intent.requestedAt);
    }
  }

  lemma RetryDueLags(d: Doc, s: State, n: Id, at: Time)
    requires Inv(d, s) && Lagging(d, s) && Fits(d, s) && RetryDue(d, s, n, at).Ok? && RetryDue(d, s, n, at).value.run.termination.Some?
    ensures Lagging(d, RetryDue(d, s, n, at).value)
  {
    hide Inv, ValidDoc, Lagging, Driving, Falling, Core, Wound, Sweep;
    InvFacts(d, s);
    RetryDueKeeps(d, s, n, at);
    ListingInside(d);
    SweepLags(d, s, Listing(d.nodes.Keys), 0, CancelReason(s.run.termination.value.kind));
    LagSame(d, Sweep(d, s, Listing(d.nodes.Keys), 0, CancelReason(s.run.termination.value.kind)).value, Wind(d, s).value);
  }

  lemma ApplyLags(d: Doc, s: State, op: Op)
    requires Inv(d, s) && Lagging(d, s)
    ensures Fits(d, s) && Lagging(d, Apply(d, s, op))
  {
    hide Inv, Lagging, HandleCompleted, RetryDue, RequestStop, QueueNode, Driving;
    LaggingFits(d, s);
    ApplyKeeps(d, s, op);
    var t := Apply(d, s, op);
    if t.run.termination.None? {
      InvFacts(d, t);
      DrivingLags(d, t);
    } else {
      match op
      case Queue(n, a) => QueueKeeps(d, s, n, a); QueueRun(s, n, a);
      case Start(a) => StartLags(d, s, a);
      case Record(a, r) => LagSame(d, s, t);
      case Completed(a, at) => if HandleCompleted(d, s, a, at).Ok? { HandleLags(d, s, a, at); }
      case Due(n, at) => if RetryDue(d, s, n, at).Ok? { RetryDueLags(d, s, n, at); }
      case Cancel(at) =>
        var intent := Intent(CanceledKind, at, Failure(RUN_CANCELED, "run_control", "", "", ""));
        if RequestStop(d, s, intent).Ok? { StopLags(d, s, intent); }
      case Deadline(at) =>
        var intent := Intent(TimedOutKind, at, Failure(RUN_TIMED_OUT, "run_deadline", "", "", ""));
        if RequestStop(d, s, intent).Ok? { StopLags(d, s, intent); }
    }
  }

  lemma QueueRun(s: State, n: Id, a: Id)
    ensures QueueNode(s, n, a).Ok? ==> s.run.termination.None? && QueueNode(s, n, a).value.run == s.run
  {
  }

  lemma StartLags(d: Doc, s: State, a: Id)
    requires Lagging(d, s) && Fits(d, s)
    ensures StartAttempt(s, a).Ok? ==> Lagging(d, StartAttempt(s, a).value)
  {
    if StartAttempt(s, a).Ok? {
      var t := StartAttempt(s, a).value;
      forall i | 0 <= i < |d.edges| ensures Lags(d, t, i) {
        assert Lags(d, s, i);
      }
    }
  }

  // In every state of every run the rebuilt edges are the live ones, except that edges left pending by
  // a node that ended badly on its own are rebuilt as inactive.
  lemma {:induction false} LaggingAlways(d: Doc, c: Command, ops: seq<Op>, states: seq<State>, i: nat)
    requires IsRun(d, c, ops, states) && i < |states|
    ensures Lagging(d, states[i])
  {
    hide Inv, Lagging, Apply, New, Drive, Seeded, Driving, ValidDoc;
    InvAlways(d, c, ops, states, i);
    if i == 0 {
      NewLags(d, c);
    } else {
      LaggingAlways(d, c, ops, states, i - 1);
      InvAlways(d, c, ops, states, i - 1);
      assert Follows(d, states[i - 1], ops[i - 1], states[i]);
      ApplyLags(d, states[i - 1], ops[i - 1]);
    }
  }

  lemma NewLags(d: Doc, c: Command)
    requires New(d, c).Ok?
    ensures Lagging(d, New(d, c).value)
  {
    hide Inv, Lagging, Drive, Seeded, Driving, ValidDoc, ValidCommand;
    NewKeeps(d, c);
    SeededKeeps(d, c);
    DocNames(d);
    SeededShape(d, c);
    DriveLags(d, Seeded(d, c).value, 0);
  }

  // Sweeping settles no edge of a node that is already over.
  lemma {:induction false} SweepKeepsEdge(d: Doc, s: State, ids: seq<Id>, i: nat, reason: string, e: nat)
    requires Fits(d, s) && i <= |ids| && (forall k :: 0 <= k < |ids| ==> ids[k] in d.nodes) && e < |d.edges|
    requires d.edges[e].source in s.nodes && s.nodes[d.edges[e].source].state.Terminal()
    ensures var r := Sweep(d, s, ids, i, reason);
            r.Ok? ==> r.value.edges[e] == s.edges[e] && r.value.nodes[d.edges[e].source] == s.nodes[d.edges[e].source]
    decreases |ids| - i
  {
    hide Outstanding;
    if i < |ids| {
      var n := ids[i];
      if s.nodes[n].state.Terminal() || Outstanding(s, n) {
        SweepKeepsEdge(d, s, ids, i + 1, reason, e);
      } else if s.nodes[n].Cancel(reason).Ok? {
        SweepKeepsEdge(d, Settle(d, SetNode(s, n, s.nodes[n].Cancel(reason).value), n, ""), ids, i + 1, reason, e);
      }
    }
  }

  // The edge maps do differ: whenever a completion fails its node for good, every edge out of the node
  // stays pending in the live engine, and is rebuilt as inactive.
  lemma FailureLeavesEdgesBehind(d: Doc, s: State, a: Id, at: Time, e: nat)
    requires Inv(d, s) && Fits(d, s) && s.run.termination.None? && Open(s, a) && UsableTime(s, at) && e < |d.edges|
    requires s.attempts[a].result.Some? && !s.attempts[a].result.value.state.AttemptSucceeded?
    requires RetryAs(d.nodes[s.attempts[a].node], s.nodes[s.attempts[a].node], s.attempts[a].result.value).None?
    requires d.edges[e].source == s.attempts[a].node
    ensures var r := HandleCompleted(d, s, a, at); r.Ok? && Fits(d, r.value) && Behind(d, r.value, e)
  {
    hide Inv, ValidDoc, Driving, Falling, Core, Wound, NodeOk, Concluding, Conclude, Sweep, OpenIn, RetryAs;
    InvFacts(d, s);
    HandleKeeps(d, s, a, at);
    ConcludingFacts(d, s, a);
    OpenFromInv(d, s, a);
    var n, r := s.attempts[a].node, s.attempts[a].result.value;
    ConcludingIsCurrent(d.nodes[n], n, s.nodes[n], s.attempts, a);
    ConcludeKeeps(d, s, a, at);
    FailureShape(d, s, n, a, r, at);
    OpenEdge(d, s, e);
    var t := Conclude(d, s, n, a, r, at).value;
    ConcludeFits(d, s, n, a, r, at);
    ListingInside(d);
    if t.run.termination.None? {
      FailedNotDriving(d, t, n);
      assert false;
    }
    SweepKeepsEdge(d, t, Listing(d.nodes.Keys), 0, CancelReason(t.run.termination.value.kind), e);
    InvFits(d, HandleCompleted(d, s, a, at).value);
  }

  lemma FailureShape(d: Doc, s: State, n: Id, a: Id, r: AttemptResult, at: Time)
    requires Fits(d, s) && n in s.nodes && !r.state.AttemptSucceeded?
    ensures Conclude(d, s, n, a, r, at).Ok? ==>
              var t := Conclude(d, s, n, a, r, at).value; n in t.nodes && EndedBadly(t.nodes[n]) && t.edges == s.edges
  {
    hide AcceptSuccess;
  }

  lemma OpenEdge(d: Doc, s: State, e: nat)
    requires Driving(d, s) && Fits(d, s) && e < |d.edges| && d.edges[e].source in s.nodes && !s.nodes[d.edges[e].source].state.Terminal()
    ensures s.edges[e].EdgePending?
  {
    hide Core, Placed, NodeFlow, RunFlow;
    assert s.edges[e] == Projected(d, s, e);
  }

  lemma FailedNotDriving(d: Doc, s: State, n: Id)
    requires n in s.nodes && EndedBadly(s.nodes[n]) && s.run.termination.None?
    ensures !Driving(d, s) && !Falling(d, s)
  {
    hide Flow;
  }
}
