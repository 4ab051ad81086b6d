/**
 The database rows of one run as the transactions change them in place.  Every transaction is proved
 to be the step that module AttemptStore describes.
 */
module Store {
  import opened Ids
  import opened Json
  import opened Runtime
  import opened Workflow
  import opened EngineSafety
  import opened EngineSpec
  import A = AttemptStore

  class RunRows {
    var run: Run
    var cancelRequestedAt: Time
    var nodes: map<Id, NodeRun>
    var attempts: map<Id, A.AttemptRow>
    var outputs: map<Id, map<string, Value>>
    var tasks: set<Id>

    function State(): A.Db
      reads this
    {
      A.Db(run, cancelRequestedAt, nodes, attempts, outputs, tasks)
    }

    // Inserts the rows of a run that was just initialized.
    constructor (s: State)
      ensures State() == A.Initialized(s)
    {
      run, cancelRequestedAt := s.run, 0;
      nodes := map n | n in s.nodes :: A.Stored(s.nodes[n]);
      attempts, outputs, tasks := map[], map[], {};
    }

    // Queues the next attempt of a node that is still as the candidate saw it, and hands out its task.
    method DispatchReady(n: Id, version: nat, a: Id, now: Time) returns (ok: bool)
      modifies this`nodes, this`attempts, this`tasks
      ensures ok <==> A.Dispatch(old(State()), n, version, a, now).Ok?
      ensures ok ==> A.Dispatch(old(State()), n, version, a, now) == Ok(State())
      ensures !ok ==> State() == old(State())
    {
      if !run.state.RunRunning? || run.termination.Some? || run.command.deadlineAt <= now || n !in nodes { return false; }
      if !nodes[n].state.Ready? || nodes[n].version != version || a in attempts { return false; }
      var queued := nodes[n].QueueAttempt(a);
      if queued.Err? { return false; }
      var attempt := NewAttempt(n, queued.value.nextSeq, nodes[n].nextKind);
      if attempt.Err? { return false; }
      var row := A.AttemptRow(n, attempt.value.sequence, attempt.value.kind, attempt.value.state, attempt.value.version, None, "", "", 0, 0);
      attempts := attempts[a := row];
      nodes := nodes[n := queued.value];
      tasks := tasks + {a};
      return true;
    }

    method Claim(a: Id, sequence: nat, worker: Id, token: Id, capable: bool, until: Time, now: Time) returns (r: Result<A.Grip>)
      modifies this`nodes, this`attempts
      ensures r.Ok? <==> A.Claim(old(State()), a, sequence, worker, token, capable, until, now).Ok?
      ensures r.Ok? ==> A.Claim(old(State()), a, sequence, worker, token, capable, until, now) == Ok((State(), r.value))
      ensures r.Err? ==> State() == old(State())
    {
      if token == "" || a !in attempts || attempts[a].node !in nodes { return Err; }
      var row := attempts[a];
      var node := nodes[row.node];
      if row.sequence != sequence || node.current != a || !capable { return Err; }
      if row.state.AttemptRunning? {
        if row.owner == worker && row.token != "" && row.expiresAt >= now {
          return Ok(A.Grip(row.token, row.owner, row.fencing, row.expiresAt));
        }
        return Err;
      }
      if !row.state.AttemptQueued? || !node.state.Queued? { return Err; }
      attempts := attempts[a := row.(state := AttemptRunning, version := row.version + 1,
                                     token := token, owner := worker, fencing := sequence, expiresAt := until)];
      nodes := nodes[row.node := node.(state := Running, version := node.version + 1)];
      return Ok(A.Grip(token, worker, sequence, until));
    }

    method Heartbeat(a: Id, sequence: nat, token: Id, fencing: nat, until: Time, now: Time) returns (ok: bool)
      modifies this`attempts
      ensures ok <==> A.Heartbeat(old(State()), a, sequence, token, fencing, until, now).Ok?
      ensures ok ==> A.Heartbeat(old(State()), a, sequence, token, fencing, until, now) == Ok(State())
      ensures !ok ==> State() == old(State())
    {
      if a !in attempts { return false; }
      var row := attempts[a];
      if !row.state.AttemptRunning? || !A.HoldsLease(row, sequence, token, fencing) || row.expiresAt < now { return false; }
      attempts := attempts[a := row.(expiresAt := until)];
      return true;
    }

    // Stores a reported result; accepted says whether it was new.
    method Complete(a: Id, sequence: nat, token: Id, fencing: nat, r: AttemptResult, now: Time) returns (ok: bool, accepted: bool)
      modifies this`attempts, this`outputs
      ensures ok <==> A.Complete(old(State()), a, sequence, token, fencing, r, now).Ok?
      ensures ok ==> A.Complete(old(State()), a, sequence, token, fencing, r, now) == Ok((State(), accepted))
      ensures !ok ==> State() == old(State())
    {
      accepted := false;
      if !A.Reportable(r) || a !in attempts || attempts[a].node !in nodes { return false, false; }
      var row := attempts[a];
      if !A.HoldsLease(row, sequence, token, fencing) { return false, false; }
      if row.state.Terminal() { return A.SameCompletion(State(), a, r), false; }
      if nodes[row.node].current != a || !row.state.AttemptRunning? || row.expiresAt < now { return false, false; }
      attempts := attempts[a := row.(state := r.state, version := row.version + 1, error := A.ErrorOf(r))];
      if r.state.AttemptSucceeded? { outputs := outputs[a := r.outputs]; }
      return true, true;
    }

    method MarkExpiredLost(a: Id, sequence: nat, now: Time) returns (ok: bool, marked: bool)
      modifies this`attempts
      ensures ok <==> A.MarkExpiredLost(old(State()), a, sequence, now).Ok?
      ensures ok ==> A.MarkExpiredLost(old(State()), a, sequence, now) == Ok((State(), marked))
      ensures !ok ==> State() == old(State())
    {
      if a !in attempts || attempts[a].node !in nodes { return false, false; }
      var row := attempts[a];
      if row.sequence != sequence || nodes[row.node].current != a { return false, false; }
      if row.state.AttemptLost? { return true, false; }
      if !row.state.AttemptRunning? || row.expiresAt > now { return false, false; }
      attempts := attempts[a := row.(state := AttemptLost, version := row.version + 1, error := A.ErrorOf(A.LEASE_LOST))];
      return true, true;
    }

    method RequestCancellation(at: Time) returns (ok: bool, applied: bool)
      modifies this`cancelRequestedAt
      ensures ok <==> A.RequestCancellation(old(State()), at).Ok?
      ensures ok ==> A.RequestCancellation(old(State()), at) == Ok((State(), applied))
      ensures !ok ==> State() == old(State())
    {
      if run.state.Terminal() || cancelRequestedAt != 0 { return true, false; }
      if at == 0 || at < run.command.createdAt { return false, false; }
      cancelRequestedAt := at;
      return true, true;
    }

    method WriteNodes(before: map<Id, NodeRun>, after: map<Id, NodeRun>)
      requires after.Keys == before.Keys == nodes.Keys
      modifies this`nodes
      ensures nodes == A.WrittenNodes(old(nodes), before, after)
    {
      hide A.Written;
      var rest := nodes.Keys;
      while rest != {}
        invariant rest <= old(nodes).Keys && nodes.Keys == old(nodes).Keys
        invariant forall n :: n in rest ==> nodes[n] == old(nodes)[n]
        invariant forall n :: n in nodes && n !in rest ==> nodes[n] == A.Written(old(nodes)[n], before[n], after[n])
        decreases |rest|
      {
        var n :| n in rest;
        WrittenIs(nodes[n], before[n], after[n]);
        if after[n].version != before[n].version {
          nodes := nodes[n := A.Stored(after[n])];
        }
        rest := rest - {n};
      }
    }

    // Writes back what the engine changed: the rows whose version is not the one that was loaded.
    method AdvanceRun(before: State, after: State)
      requires after.nodes.Keys == before.nodes.Keys == nodes.Keys
      modifies this`nodes, this`run
      ensures State() == A.AdvanceRun(old(State()), before, after)
    {
      WriteNodes(before.nodes, after.nodes);
      if after.run.version != before.run.version { run := after.run; }
    }
  }

  lemma WrittenIs(row: NodeRun, before: NodeRun, after: NodeRun)
    ensures A.Written(row, before, after) == if after.version != before.version then A.Stored(after) else row
  {
  }
}
