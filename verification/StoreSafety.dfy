/**
 Every transaction on the rows of a run is an operation of the engine, or changes nothing the
 engine sees; so what holds of engine runs holds of every interleaving of transactions.
 */
module StoreSafety {
  import opened Ids
  import opened Json
  import opened Runtime
  import opened Workflow
  import opened EngineSpec
  import opened EngineInvariants
  import opened EngineDrive
  import opened EngineSafety
  import opened EngineContinuity
  import opened EngineRestore
  import opened EngineOutputs
  import opened AttemptStore

  // ---------------------------------------------------------------- the invariant

  // An attempt that is over has its error or its output; one that runs has a lease, one that waits none.
  ghost predicate RowOk(db: Db, a: Id)
    requires a in db.attempts
  {
    var row := db.attempts[a];
    && (a in db.outputs <==> row.state.AttemptSucceeded?)
    && (row.error.Some? <==> row.state.Terminal() && !row.state.AttemptSucceeded?)
    && (row.state.AttemptRunning? ==> row.token != "" && row.fencing == row.sequence)
    && (row.state.AttemptQueued? ==> row.token == "")
  }

  ghost predicate RowsOk(db: Db) {
    && (forall a :: a in db.attempts ==> RowOk(db, a))
    && db.outputs.Keys <= db.attempts.Keys && db.tasks == db.attempts.Keys && "" !in db.attempts
    && (forall n :: n in db.nodes ==> db.nodes[n].outputs == map[])
  }

  ghost predicate Sound(d: Doc, db: Db) {
    Inv(d, Load(d, db)) && AllSourced(d, Load(d, db)) && EntryKept(d, Load(d, db)) && RowsOk(db)
  }

  // ---------------------------------------------------------------- what the rows say

  lemma LoadedNode(d: Doc, db: Db, n: Id)
    ensures n in Load(d, db).nodes <==> n in db.nodes
    ensures n in db.nodes ==>
              var x, y := db.nodes[n], Load(d, db).nodes[n]; y == x.(outputs := y.outputs)
  {
  }

  lemma LoadedAttempt(d: Doc, db: Db, a: Id)
    ensures a in Load(d, db).attempts <==> a in db.attempts
    ensures a in db.attempts ==> Load(d, db).attempts[a] == LoadAttempt(db, a)
  {
  }

  lemma LoadFits(d: Doc, db: Db)
    requires Sound(d, db)
    ensures Fits(d, Load(d, db)) && Load(d, db).nodes.Keys == db.nodes.Keys && Load(d, db).run == db.run
    ensures Load(d, db).attempts.Keys == db.attempts.Keys
  {
    hide Inv, AllSourced;
    InvFits(d, Load(d, db));
  }

  // Rebuilding looks at the states and routes of the nodes only.
  lemma RebuiltSame(d: Doc, nodes: map<Id, NodeRun>, n: Id, node: NodeRun)
    requires n in nodes && !nodes[n].state.Terminal() && !node.state.Terminal()
    ensures Rebuilt(d, nodes[n := node]) == Rebuilt(d, nodes)
  {
  }

  // db2 differs from db in the row of node n, the row of attempt a, and the output of a.
  ghost predicate OnlyRows(db: Db, db2: Db, n: Id, a: Id) {
    && db2.run == db.run && n in db.nodes && n in db2.nodes && a in db2.attempts
    && db2.nodes == db.nodes[n := db2.nodes[n]] && db2.attempts == db.attempts[a := db2.attempts[a]]
    && db2.nodes[n].effective == db.nodes[n].effective && db2.nodes[n].outputs == db.nodes[n].outputs
    && (forall b :: b != a ==> OutputsAt(db2, b) == OutputsAt(db, b))
    && (OutputsAt(db2, a) != OutputsAt(db, a) ==> forall m :: m in db.nodes ==> db.nodes[m].effective != a)
  }

  lemma OtherNodeSame(d: Doc, db: Db, db2: Db, n: Id, a: Id, m: Id)
    requires OnlyRows(db, db2, n, a) && m in db.nodes && (m != n || db2.nodes[n] == db.nodes[n])
    ensures LoadNode(d, db2, m) == LoadNode(d, db, m)
  {
    hide Refilled;
  }

  lemma OpenNodeMoves(d: Doc, db: Db, db2: Db, n: Id, a: Id)
    requires OnlyRows(db, db2, n, a) && !db.nodes[n].state.Terminal() && !db2.nodes[n].state.Terminal()
    ensures LoadNode(d, db2, n) == db2.nodes[n].(outputs := LoadNode(d, db, n).outputs)
    ensures !LoadNode(d, db, n).state.Terminal() && !LoadNode(d, db2, n).state.Terminal()
  {
  }

  lemma OtherAttemptSame(db: Db, db2: Db, n: Id, a: Id, b: Id)
    requires OnlyRows(db, db2, n, a) && b in db.attempts && b != a
    ensures b in db2.attempts && LoadAttempt(db2, b) == LoadAttempt(db, b)
  {
  }

  lemma RowsBeside(db: Db, db2: Db, n: Id, a: Id)
    requires OnlyRows(db, db2, n, a)
    ensures n in db.nodes && db2.nodes.Keys == db.nodes.Keys
  {
  }

  lemma NodesUpdate(d: Doc, db: Db, db2: Db, n: Id, a: Id)
    requires OnlyRows(db, db2, n, a)
    requires db2.nodes[n] == db.nodes[n] || (!db.nodes[n].state.Terminal() && !db2.nodes[n].state.Terminal())
    ensures var x, y := LoadNodes(d, db), LoadNodes(d, db2);
            n in x && y == x[n := db2.nodes[n].(outputs := x[n].outputs)]
            && (db2.nodes[n] != db.nodes[n] ==> !x[n].state.Terminal() && !y[n].state.Terminal())
            && (db2.nodes[n] == db.nodes[n] ==> y == x)
  {
    hide LoadNode, OutputsAt, OnlyRows;
    RowsBeside(db, db2, n, a);
    var x, y := LoadNodes(d, db), LoadNodes(d, db2);
    forall m | m in db.nodes && m != n ensures y[m] == x[m] {
      OtherNodeSame(d, db, db2, n, a, m);
    }
    NodeColumns(d, db, n);
    if db2.nodes[n] == db.nodes[n] {
      OtherNodeSame(d, db, db2, n, a, n);
    } else {
      OpenNodeMoves(d, db, db2, n, a);
    }
  }

  lemma NodeColumns(d: Doc, db: Db, n: Id)
    requires n in db.nodes
    ensures LoadNode(d, db, n) == db.nodes[n].(outputs := LoadNode(d, db, n).outputs)
  {
  }

  lemma AttemptsUpdate(db: Db, db2: Db, n: Id, a: Id)
    requires OnlyRows(db, db2, n, a)
    ensures LoadAttempts(db2) == LoadAttempts(db)[a := LoadAttempt(db2, a)]
  {
    hide LoadAttempt, OutputsAt;
    var x, y := LoadAttempts(db), LoadAttempts(db2);
    forall b | b in db.attempts && b != a ensures y[b] == x[b] {
      OtherAttemptSame(db, db2, n, a, b);
    }
  }

  // What the engine sees of such a change.
  lemma LoadUpdate(d: Doc, db: Db, db2: Db, n: Id, a: Id)
    requires OnlyRows(db, db2, n, a)
    requires db2.nodes[n] == db.nodes[n] || (!db.nodes[n].state.Terminal() && !db2.nodes[n].state.Terminal())
    ensures var s, t := Load(d, db), Load(d, db2);
            && n in s.nodes && t.run == s.run && t.edges == s.edges
            && t.nodes == s.nodes[n := db2.nodes[n].(outputs := s.nodes[n].outputs)]
            && t.attempts == s.attempts[a := LoadAttempt(db2, a)]
  {
    hide Rebuilt, LoadNodes, LoadAttempts, LoadAttempt, OutputsAt;
    NodesUpdate(d, db, db2, n, a);
    AttemptsUpdate(db, db2, n, a);
    if db2.nodes[n] != db.nodes[n] {
      RebuiltSame(d, LoadNodes(d, db), n, LoadNodes(d, db2)[n]);
    }
  }

  // ---------------------------------------------------------------- dispatch

  lemma DispatchRows(db: Db, n: Id, version: nat, a: Id, now: Time)
    requires RowsOk(db) && Dispatch(db, n, version, a, now).Ok?
    ensures var db2 := Dispatch(db, n, version, a, now).value; OnlyRows(db, db2, n, a) && RowsOk(db2)
  {
    var db2 := Dispatch(db, n, version, a, now).value;
    forall b | b in db2.attempts ensures RowOk(db2, b) {
      if b != a { assert RowOk(db, b); }
    }
  }

  lemma QueueIgnoresOutputs(x: NodeRun, outputs: map<string, Value>, a: Id)
    ensures var y := x.(outputs := outputs);
            y.QueueAttempt(a).Ok? == x.QueueAttempt(a).Ok?
            && (x.QueueAttempt(a).Ok? ==> y.QueueAttempt(a).value == x.QueueAttempt(a).value.(outputs := outputs))
  {
  }

  lemma DispatchRefines(d: Doc, db: Db, n: Id, version: nat, a: Id, now: Time)
    requires Sound(d, db) && Fits(d, Load(d, db)) && Dispatch(db, n, version, a, now).Ok?
    ensures var db2 := Dispatch(db, n, version, a, now).value;
            QueueNode(Load(d, db), n, a) == Ok(Load(d, db2)) && RowsOk(db2)
  {
    hide Inv, AllSourced, EntryKept, RowsOk, Load, OnlyRows;
    SoundRows(d, db);
    LoadFits(d, db);
    LoadedNode(d, db, n);
    QueueIgnoresOutputs(db.nodes[n], Load(d, db).nodes[n].outputs, a);
    var db2 := Dispatch(db, n, version, a, now).value;
    DispatchRows(db, n, version, a, now);
    LoadUpdate(d, db, db2, n, a);
  }

  lemma SoundRows(d: Doc, db: Db)
    requires Sound(d, db)
    ensures RowsOk(db) && Inv(d, Load(d, db)) && AllSourced(d, Load(d, db)) && EntryKept(d, Load(d, db))
  {
    hide Inv, AllSourced, EntryKept, RowsOk, Load;
  }

  // ---------------------------------------------------------------- claims and heartbeats

  // The rows a first claim leaves.
  lemma ClaimRows(db: Db, a: Id, sequence: nat, worker: Id, token: Id, until: Time, now: Time)
    requires RowsOk(db) && Claim(db, a, sequence, worker, token, true, until, now).Ok?
    requires !db.attempts[a].state.AttemptRunning?
    ensures var db2 := Claim(db, a, sequence, worker, token, true, until, now).value.0;
            && OnlyRows(db, db2, db.attempts[a].node, a) && RowsOk(db2)
            && db.nodes[db.attempts[a].node].state.Queued? && db.nodes[db.attempts[a].node].current == a
  {
    var db2 := Claim(db, a, sequence, worker, token, true, until, now).value.0;
    forall b | b in db2.attempts ensures RowOk(db2, b) {
      assert RowOk(db, b);
    }
  }

  lemma ClaimRefines(d: Doc, db: Db, a: Id, sequence: nat, worker: Id, token: Id, until: Time, now: Time)
    requires Sound(d, db) && Fits(d, Load(d, db)) && Claim(db, a, sequence, worker, token, true, until, now).Ok?
    ensures var db2 := Claim(db, a, sequence, worker, token, true, until, now).value.0;
            (db2 == db || StartAttempt(Load(d, db), a) == Ok(Load(d, db2))) && RowsOk(db2)
  {
    hide Inv, AllSourced, EntryKept, RowsOk, Load, OnlyRows;
    SoundRows(d, db);
    LoadFits(d, db);
    LoadedAttempt(d, db, a);
    if !db.attempts[a].state.AttemptRunning? {
      var n := db.attempts[a].node;
      LoadedNode(d, db, n);
      LoadedKind(d, db, n);
      ClaimRows(db, a, sequence, worker, token, until, now);
      LoadUpdate(d, db, Claim(db, a, sequence, worker, token, true, until, now).value.0, n, a);
    }
  }

  // Nodes that are queued are tasks.
  lemma LoadedKind(d: Doc, db: Db, n: Id)
    requires Sound(d, db) && n in db.nodes
    ensures db.nodes[n].state.Queued? ==> db.nodes[n].kind.Task?
  {
    hide Inv, AllSourced, EntryKept, RowsOk, Load, Core, ValidDoc;
    LoadedNode(d, db, n);
    InvFacts(d, Load(d, db));
    if db.nodes[n].state.Queued? {
      OpenIsTask(d, Load(d, db), n);
    }
  }

  lemma HeartbeatKeeps(d: Doc, db: Db, a: Id, sequence: nat, token: Id, fencing: nat, until: Time, now: Time)
    requires RowsOk(db) && Heartbeat(db, a, sequence, token, fencing, until, now).Ok?
    ensures var db2 := Heartbeat(db, a, sequence, token, fencing, until, now).value; Load(d, db2) == Load(d, db) && RowsOk(db2)
  {
    var db2 := Heartbeat(db, a, sequence, token, fencing, until, now).value;
    assert LoadNodes(d, db2) == LoadNodes(d, db);
    assert LoadAttempts(db2) == LoadAttempts(db);
    forall b | b in db2.attempts ensures RowOk(db2, b) {
      assert RowOk(db, b);
    }
  }

  // ---------------------------------------------------------------- results

  // What the rows keep of a report.
  function Kept(r: AttemptResult): AttemptResult {
    if r.state.AttemptSucceeded? then AttemptResult(r.state, r.outputs, "", "", "")
    else AttemptResult(r.state, map[], r.code, r.message, r.field)
  }

  // The rows after attempt a is over with result r.
  function Over(db: Db, a: Id, r: AttemptResult): Db
    requires a in db.attempts
  {
    db.(attempts := db.attempts[a := db.attempts[a].(state := r.state, version := db.attempts[a].version + 1, error := ErrorOf(r))],
        outputs := if r.state.AttemptSucceeded? then db.outputs[a := r.outputs] else db.outputs)
  }

  lemma OverRows(db: Db, a: Id, r: AttemptResult)
    requires RowsOk(db) && a in db.attempts && db.attempts[a].node in db.nodes && db.attempts[a].state.AttemptRunning?
    requires r.state.Terminal() && forall m :: m in db.nodes ==> db.nodes[m].effective != a
    ensures OnlyRows(db, Over(db, a, r), db.attempts[a].node, a) && RowsOk(Over(db, a, r))
    ensures LoadAttempt(Over(db, a, r), a)
            == LoadAttempt(db, a).(state := r.state, version := db.attempts[a].version + 1, result := Some(Kept(r)))
    ensures LoadAttempt(db, a).result.None?
  {
    var db2 := Over(db, a, r);
    assert RowOk(db, a);
    forall b | b in db2.attempts ensures RowOk(db2, b) {
      assert RowOk(db, b);
    }
  }

  // No node shows the outputs of an attempt that still runs.
  lemma RunningNotEffective(d: Doc, db: Db, a: Id)
    requires Sound(d, db) && a in db.attempts && !db.attempts[a].state.Terminal()
    ensures forall m :: m in db.nodes ==> db.nodes[m].effective != a
  {
    hide Inv, EntryKept, RowOk, Load;
    LoadFits(d, db);
    assert a != "";
    forall m | m in db.nodes ensures db.nodes[m].effective != a {
      LoadedNode(d, db, m);
      LoadedAttempt(d, db, a);
      assert Sourced(d.nodes[m], Load(d, db).nodes[m], Load(d, db).attempts);
    }
  }

  lemma OverRefines(d: Doc, db: Db, a: Id, r: AttemptResult)
    requires Sound(d, db) && Fits(d, Load(d, db)) && a in db.attempts && db.attempts[a].node in db.nodes
    requires db.attempts[a].state.AttemptRunning? && db.nodes[db.attempts[a].node].current == a
    requires r.state.Terminal() && (r.state.AttemptSucceeded? <==> r.code == "")
    ensures RecordResult(Load(d, db), a, Kept(r)) == Ok((Load(d, Over(db, a, r)), true)) && RowsOk(Over(db, a, r))
  {
    hide Inv, AllSourced, EntryKept, RowsOk, Load, OnlyRows;
    SoundRows(d, db);
    RunningNotEffective(d, db, a);
    var n := db.attempts[a].node;
    LoadedNode(d, db, n);
    LoadedAttempt(d, db, a);
    OverRows(db, a, r);
    LoadUpdate(d, db, Over(db, a, r), n, a);
    var s, t := Load(d, db), Load(d, Over(db, a, r));
    assert t.nodes == s.nodes;
  }

  // A report is accepted exactly when it is well formed and comes under the lease that still holds.
  lemma CompleteRefines(d: Doc, db: Db, a: Id, sequence: nat, token: Id, fencing: nat, r: AttemptResult, now: Time)
    requires Sound(d, db) && Fits(d, Load(d, db))
    ensures var x := Complete(db, a, sequence, token, fencing, r, now);
            && (x.Ok? && !x.value.1 ==> x.value.0 == db)
            && (x.Ok? && x.value.1 ==>
                  RecordResult(Load(d, db), a, Kept(r)) == Ok((Load(d, x.value.0), true)) && RowsOk(x.value.0))
            && (x.Ok? && x.value.1 <==>
                  && Reportable(r) && a in db.attempts && db.attempts[a].node in db.nodes && db.nodes[db.attempts[a].node].current == a
                  && HoldsLease(db.attempts[a], sequence, token, fencing)
                  && db.attempts[a].state.AttemptRunning? && db.attempts[a].expiresAt >= now)
  {
    hide Inv, AllSourced, EntryKept, RowsOk, Load;
    var x := Complete(db, a, sequence, token, fencing, r, now);
    if x.Ok? && x.value.1 {
      OverRefines(d, db, a, r);
      assert x.value.0 == Over(db, a, r);
    }
  }

  // A lease is declared lost exactly when it is the current one of its node and its time has come.
  lemma LostRefines(d: Doc, db: Db, a: Id, sequence: nat, now: Time)
    requires Sound(d, db) && Fits(d, Load(d, db))
    ensures var x := MarkExpiredLost(db, a, sequence, now);
            && (x.Ok? && !x.value.1 ==> x.value.0 == db)
            && (x.Ok? && x.value.1 ==>
                  RecordResult(Load(d, db), a, LEASE_LOST) == Ok((Load(d, x.value.0), true)) && RowsOk(x.value.0))
            && (x.Ok? && x.value.1 <==>
                  && a in db.attempts && db.attempts[a].node in db.nodes && db.nodes[db.attempts[a].node].current == a
                  && db.attempts[a].sequence == sequence && db.attempts[a].state.AttemptRunning? && db.attempts[a].expiresAt <= now)
  {
    hide Inv, AllSourced, EntryKept, RowsOk, Load;
    var x := MarkExpiredLost(db, a, sequence, now);
    if x.Ok? && x.value.1 {
      OverRefines(d, db, a, LEASE_LOST);
      assert x.value.0 == Over(db, a, LEASE_LOST);
    }
  }

  // ---------------------------------------------------------------- advancing

  // Every operation of an advancement leaves the attempts alone and raises the version of what it changes.
  lemma AdvanceShape(d: Doc, s: State, op: Op)
    requires Inv(d, s) && Fits(d, s) && (op.Completed? || op.Due? || op.Cancel? || op.Deadline?)
    ensures Continues(s, Apply(d, s, op)) && Apply(d, s, op).attempts == s.attempts && Apply(d, s, op).run.command == s.run.command
  {
    hide Inv, HandleCompleted, RetryDue, RequestStop, Continues;
    ContinuesReflexive(s);
    match op
    case Completed(a, at) =>
      HandleKeeps(d, s, a, at);
      if HandleCompleted(d, s, a, at).Ok? { HandleCloses(d, s, a, at); }
    case Due(n, at) =>
      RetryDueKeeps(d, s, n, at);
      RetryDueContinues(d, s, n, at);
    case Cancel(at) =>
      var intent := Intent(CanceledKind, at, Failure(RUN_CANCELED, "run_control", "", "", ""));
      RequestStopKeeps(d, s, intent);
      StopContinues(d, s, intent);
    case Deadline(at) =>
      var intent := Intent(TimedOutKind, at, Failure(RUN_TIMED_OUT, "run_deadline", "", "", ""));
      RequestStopKeeps(d, s, intent);
      StopContinues(d, s, intent);
    case _ =>
  }

  // A changed record that is written and loaded again comes back as it was.
  lemma StoredComesBack(d: Doc, db: Db, n: Id, node: NodeRun)
    requires n in db.nodes && n in d.nodes && Sourced(d.nodes[n], node, LoadAttempts(db)) && !d.nodes[n].op.StartOp?
    requires "" !in db.outputs && db.outputs.Keys <= db.attempts.Keys && (n == d.entry ==> d.nodes[n].op.StartOp?)
    ensures Stored(node).(outputs := OutputsAt(db, node.effective)) == node
  {
  }

  lemma AdvanceNode(d: Doc, db: Db, t: State, n: Id)
    requires Sound(d, db) && n in db.nodes && t.nodes.Keys == Load(d, db).nodes.Keys == db.nodes.Keys && n in d.nodes
    requires Driven(Load(d, db).nodes[n], t.nodes[n]) && t.attempts == Load(d, db).attempts
    requires Sourced(d.nodes[n], t.nodes[n], t.attempts) && t.run.command == db.run.command
    requires d.nodes[n].op.StartOp? <==> n == d.entry
    ensures LoadNode(d, AdvanceRun(db, Load(d, db), t), n) == t.nodes[n]
  {
    hide Inv, AllSourced, Sourced;
    var s, db2 := Load(d, db), AdvanceRun(db, Load(d, db), t);
    LoadedNode(d, db, n);
    if t.nodes[n].version == s.nodes[n].version {
      assert t.nodes[n] == s.nodes[n];
    } else if n == d.entry {
      assert false;
    } else {
      StoredComesBack(d, db, n, t.nodes[n]);
    }
  }

  lemma AdvancedRows(d: Doc, db: Db, t: State)
    requires RowsOk(db) && t.nodes.Keys == Load(d, db).nodes.Keys == db.nodes.Keys
    ensures var db2 := AdvanceRun(db, Load(d, db), t);
            && RowsOk(db2) && LoadAttempts(db2) == LoadAttempts(db) && db2.nodes.Keys == db.nodes.Keys
  {
    hide Load;
    var db2 := AdvanceRun(db, Load(d, db), t);
    forall b | b in db2.attempts ensures RowOk(db2, b) {
      assert RowOk(db, b);
    }
  }

  // Writing back what changed and loading it again gives the engine's state, but for edges nobody looks at.
  lemma AdvancedLoads(d: Doc, db: Db, t: State)
    requires Sound(d, db) && Fits(d, Load(d, db)) && Inv(d, t) && AllSourced(d, t)
    requires Continues(Load(d, db), t) && t.attempts == Load(d, db).attempts && t.run.command == db.run.command
    ensures t.nodes.Keys == Load(d, db).nodes.Keys == db.nodes.Keys
    ensures var db2 := AdvanceRun(db, Load(d, db), t);
            RowsOk(db2) && Load(d, db2) == t.(edges := Rebuilt(d, t.nodes))
  {
    hide Inv, AllSourced, EntryKept, RowsOk, Load, LoadNode, AdvanceRun, LoadAttempts, Rebuilt;
    LoadFits(d, db);
    SoundRows(d, db);
    var s, db2 := Load(d, db), AdvanceRun(db, Load(d, db), t);
    AdvancedRows(d, db, t);
    forall n | n in db.nodes ensures n in t.nodes && LoadNode(d, db2, n) == t.nodes[n] {
      SourcedNode(d, t, n);
      Roles(d, t, n);
      AdvanceNode(d, db, t, n);
    }
    assert LoadNodes(d, db2) == t.nodes;
    LoadParts(d, db);
    LoadParts(d, db2);
    RunAdvances(d, db, t);
  }

  lemma LoadParts(d: Doc, db: Db)
    ensures Load(d, db) == State(db.run, LoadNodes(d, db), LoadAttempts(db), Rebuilt(d, LoadNodes(d, db)))
  {
  }

  lemma RunAdvances(d: Doc, db: Db, t: State)
    requires t.nodes.Keys == Load(d, db).nodes.Keys == db.nodes.Keys && RunMoved(Load(d, db).run, t.run)
    ensures AdvanceRun(db, Load(d, db), t).run == t.run
  {
  }

  lemma SourcedNode(d: Doc, s: State, n: Id)
    requires AllSourced(d, s) && n in s.nodes
    ensures n in d.nodes && Sourced(d.nodes[n], s.nodes[n], s.attempts)
  {
  }

  lemma Roles(d: Doc, s: State, n: Id)
    requires Inv(d, s) && n in d.nodes
    ensures d.nodes[n].op.StartOp? <==> n == d.entry
  {
    hide Core, Flow, Wound, HasIncoming, HasOutgoing, HasRouteEdge, ValidBinding, ValidEdges;
    assert ValidNode(d, n);
  }

  // The rows after the engine applied one operation to what it had loaded.
  ghost function Advanced(d: Doc, db: Db, op: Op): Db
    requires Fits(d, Load(d, db))
  {
    var s := Load(d, db);
    var t := Apply(d, s, op);
    if t.nodes.Keys == s.nodes.Keys then AdvanceRun(db, s, t) else db
  }

  // An advancement is one operation of the engine.
  lemma AdvanceRefines(d: Doc, db: Db, op: Op)
    requires Sound(d, db) && Fits(d, Load(d, db)) && (op.Completed? || op.Due? || op.Cancel? || op.Deadline?)
    ensures Twin(Apply(d, Load(d, db), op), Load(d, Advanced(d, db, op))) && Sound(d, Advanced(d, db, op))
  {
    hide Inv, AllSourced, EntryKept, RowsOk, Load, AdvanceRun, Apply, Twin, Continues, Rebuilt;
    SoundRows(d, db);
    LoadFits(d, db);
    var s := Load(d, db);
    var t := Apply(d, s, op);
    AdvanceShape(d, s, op);
    ApplyKeeps(d, s, op);
    ApplySourced(d, s, op);
    EntryKeptByApply(d, s, op);
    AdvancedLoads(d, db, t);
    RestoreGivesTwin(d, t);
    var u := t.(edges := Rebuilt(d, t.nodes));
    TwinIsSound(d, t, u);
    InvFits(d, t);
    SourcedSame(d, t, u);
    EntrySame(d, t, u);
  }

  lemma AdvanceIs(d: Doc, db: Db, e: Event, now: Time)
    requires Fits(d, Load(d, db))
    ensures Advance(d, db, e, now)
            == if db.run.state.Terminal() || OpFor(db, e, now).None? then db else Advanced(d, db, OpFor(db, e, now).value)
  {
    hide Apply, Load;
  }

  lemma EntrySame(d: Doc, t: State, u: State)
    requires EntryKept(d, t) && u.nodes == t.nodes
    ensures EntryKept(d, u)
  {
  }

  // ---------------------------------------------------------------- all transactions

  datatype Tx =
    | DoDispatch(node: Id, version: nat, attempt: Id)
    | DoClaim(attempt: Id, sequence: nat, worker: Id, token: Id, capable: bool, until: Time)
    | DoHeartbeat(attempt: Id, sequence: nat, token: Id, fencing: nat, until: Time)
    | DoComplete(attempt: Id, sequence: nat, token: Id, fencing: nat, result: AttemptResult)
    | DoMarkLost(attempt: Id, sequence: nat)
    | DoRequestCancellation(at: Time)
    | DoAdvance(event: Event)

  // The rows after one transaction; one that fails leaves them as they were.
  ghost function Take(d: Doc, db: Db, tx: Tx, now: Time): Db
    requires Fits(d, Load(d, db))
  {
    match tx
    case DoDispatch(n, version, a) => (match Dispatch(db, n, version, a, now) case Ok(x) => x case Err => db)
    case DoClaim(a, seqNo, worker, token, capable, until) =>
      (match Claim(db, a, seqNo, worker, token, capable, until, now) case Ok((x, _)) => x case Err => db)
    case DoHeartbeat(a, seqNo, token, fencing, until) =>
      (match Heartbeat(db, a, seqNo, token, fencing, until, now) case Ok(x) => x case Err => db)
    case DoComplete(a, seqNo, token, fencing, r) =>
      (match Complete(db, a, seqNo, token, fencing, r, now) case Ok((x, _)) => x case Err => db)
    case DoMarkLost(a, seqNo) => (match MarkExpiredLost(db, a, seqNo, now) case Ok((x, _)) => x case Err => db)
    case DoRequestCancellation(at) => (match RequestCancellation(db, at) case Ok((x, _)) => x case Err => db)
    case DoAdvance(e) => Advance(d, db, e, now)
  }

  // The engine operation that a transaction amounts to, if it changes what the engine sees.
  function Meaning(db: Db, tx: Tx, now: Time): Option<Op> {
    match tx
    case DoDispatch(n, _, a) => Some(Queue(n, a))
    case DoClaim(a, _, _, _, _, _) => Some(Start(a))
    case DoHeartbeat(_, _, _, _, _) => None
    case DoComplete(a, _, _, _, r) => Some(Record(a, Kept(r)))
    case DoMarkLost(a, _) => Some(Record(a, LEASE_LOST))
    case DoRequestCancellation(_) => None
    case DoAdvance(e) => OpFor(db, e, now)
  }

  // The rows changed as the engine would have changed its state by op, or not at all.
  ghost predicate Simulates(d: Doc, db: Db, db2: Db, op: Option<Op>) {
    Fits(d, Load(d, db)) &&
    (Load(d, db2) == Load(d, db) || (op.Some? && Twin(Apply(d, Load(d, db), op.value), Load(d, db2))))
  }

  // An operation of the engine that the rows followed keeps them sound.
  lemma FollowedSound(d: Doc, db: Db, db2: Db, op: Op)
    requires Sound(d, db) && Fits(d, Load(d, db)) && RowsOk(db2) && Load(d, db2) == Apply(d, Load(d, db), op)
    ensures Sound(d, db2)
  {
    hide Inv, AllSourced, EntryKept, RowsOk, Load, Apply;
    SoundRows(d, db);
    ApplyKeeps(d, Load(d, db), op);
    ApplySourced(d, Load(d, db), op);
    EntryKeptByApply(d, Load(d, db), op);
  }

  lemma SameSound(d: Doc, db: Db, db2: Db)
    requires Sound(d, db) && RowsOk(db2) && Load(d, db2) == Load(d, db)
    ensures Sound(d, db2)
  {
    hide Inv, AllSourced, EntryKept, RowsOk, Load;
  }

  lemma TwinSelf(s: State)
    ensures Twin(s, s)
  {
  }

  lemma DispatchSound(d: Doc, db: Db, tx: Tx, now: Time)
    requires Sound(d, db) && Fits(d, Load(d, db)) && tx.DoDispatch?
    ensures Sound(d, Take(d, db, tx, now)) && Simulates(d, db, Take(d, db, tx, now), Meaning(db, tx, now))
  {
    hide Sound, Load, Twin, RowsOk, Dispatch, QueueNode, EntryKept, Inv, AllSourced;
    if Dispatch(db, tx.node, tx.version, tx.attempt, now).Ok? {
      DispatchRefines(d, db, tx.node, tx.version, tx.attempt, now);
      FollowedSound(d, db, Take(d, db, tx, now), Queue(tx.node, tx.attempt));
      TwinSelf(Load(d, Take(d, db, tx, now)));
    }
  }

  lemma ClaimSound(d: Doc, db: Db, tx: Tx, now: Time)
    requires Sound(d, db) && Fits(d, Load(d, db)) && tx.DoClaim?
    ensures Sound(d, Take(d, db, tx, now)) && Simulates(d, db, Take(d, db, tx, now), Meaning(db, tx, now))
  {
    hide Sound, Load, Twin, RowsOk, StartAttempt;
    var r := Claim(db, tx.attempt, tx.sequence, tx.worker, tx.token, tx.capable, tx.until, now);
    if r.Ok? {
      assert tx.capable;
      ClaimRefines(d, db, tx.attempt, tx.sequence, tx.worker, tx.token, tx.until, now);
      if r.value.0 != db {
        FollowedSound(d, db, r.value.0, Start(tx.attempt));
        TwinSelf(Load(d, r.value.0));
      }
    }
  }

  lemma ReportSound(d: Doc, db: Db, tx: Tx, now: Time)
    requires Sound(d, db) && Fits(d, Load(d, db)) && (tx.DoComplete? || tx.DoMarkLost?)
    ensures Sound(d, Take(d, db, tx, now)) && Simulates(d, db, Take(d, db, tx, now), Meaning(db, tx, now))
  {
    hide Sound, Load, Twin, RowsOk, RecordResult, Complete, MarkExpiredLost;
    var db2 := Take(d, db, tx, now);
    if tx.DoComplete? {
      CompleteRefines(d, db, tx.attempt, tx.sequence, tx.token, tx.fencing, tx.result, now);
    } else {
      LostRefines(d, db, tx.attempt, tx.sequence, now);
    }
    if db2 != db {
      FollowedSound(d, db, db2, Meaning(db, tx, now).value);
      TwinSelf(Load(d, db2));
    }
  }

  lemma LeaseSound(d: Doc, db: Db, tx: Tx, now: Time)
    requires Sound(d, db) && Fits(d, Load(d, db)) && (tx.DoHeartbeat? || tx.DoRequestCancellation?)
    ensures Sound(d, Take(d, db, tx, now)) && Simulates(d, db, Take(d, db, tx, now), Meaning(db, tx, now))
  {
    hide Inv, AllSourced, EntryKept, Load, RowsOk, Heartbeat;
    var db2 := Take(d, db, tx, now);
    SoundRows(d, db);
    if db2 != db {
      if tx.DoHeartbeat? {
        HeartbeatKeeps(d, db, tx.attempt, tx.sequence, tx.token, tx.fencing, tx.until, now);
      } else {
        CancellationKeeps(d, db, db2);
      }
      SameSound(d, db, db2);
    }
  }

  lemma CancellationKeeps(d: Doc, db: Db, db2: Db)
    requires RowsOk(db) && db2 == db.(cancelRequestedAt := db2.cancelRequestedAt)
    ensures RowsOk(db2) && Load(d, db2) == Load(d, db)
  {
    assert LoadNodes(d, db2) == LoadNodes(d, db);
    assert LoadAttempts(db2) == LoadAttempts(db);
    forall b | b in db2.attempts ensures RowOk(db2, b) {
      assert RowOk(db, b);
    }
  }

  lemma AdvanceSound(d: Doc, db: Db, e: Event, now: Time)
    requires Sound(d, db) && Fits(d, Load(d, db))
    ensures Sound(d, Advance(d, db, e, now)) && Simulates(d, db, Advance(d, db, e, now), OpFor(db, e, now))
  {
    hide Sound, Load, Twin, Advance, Apply, Advanced;
    AdvanceIs(d, db, e, now);
    if !db.run.state.Terminal() && OpFor(db, e, now).Some? {
      AdvanceRefines(d, db, OpFor(db, e, now).value);
    }
  }

  // Every transaction keeps the rows sound, and is an operation of the engine or invisible to it.
  lemma TakeSound(d: Doc, db: Db, tx: Tx, now: Time)
    requires Sound(d, db)
    ensures Fits(d, Load(d, db)) && Sound(d, Take(d, db, tx, now)) && Simulates(d, db, Take(d, db, tx, now), Meaning(db, tx, now))
  {
    hide Sound, Load, Simulates, Advance;
    LoadFits(d, db);
    match tx
    case DoDispatch(_, _, _) => DispatchSound(d, db, tx, now);
    case DoClaim(_, _, _, _, _, _) => ClaimSound(d, db, tx, now);
    case DoComplete(_, _, _, _, _) => ReportSound(d, db, tx, now);
    case DoMarkLost(_, _) => ReportSound(d, db, tx, now);
    case DoHeartbeat(_, _, _, _, _) => LeaseSound(d, db, tx, now);
    case DoRequestCancellation(_) => LeaseSound(d, db, tx, now);
    case DoAdvance(e) => AdvanceSound(d, db, e, now);
  }
}
