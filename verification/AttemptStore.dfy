/**
 The rows of one run in the database, and each transaction as one atomic step over them: dispatch,
 claim, heartbeat, completion, lost leases, and the engine's advancement.
 */
module AttemptStore {
  import opened Ids
  import opened Json
  import opened Runtime
  import opened Workflow
  import opened EngineSpec
  import opened EngineSafety
  import opened EngineRestore

  datatype ErrorRow = ErrorRow(code: string, message: string, field: string)

  // token is empty and expiresAt zero while the attempt was never claimed.
  datatype AttemptRow = AttemptRow(
    node: Id, sequence: nat, kind: RetryKind, state: AttemptState, version: nat,
    error: Option<ErrorRow>, token: Id, owner: Id, fencing: nat, expiresAt: Time)

  // Node rows hold no outputs: those are in the output row of the effective attempt.
  datatype Db = Db(
    run: Run, cancelRequestedAt: Time, nodes: map<Id, NodeRun>, attempts: map<Id, AttemptRow>,
    outputs: map<Id, map<string, Value>>, tasks: set<Id>)

  // ---------------------------------------------------------------- loading

  function OutputsAt(db: Db, a: Id): map<string, Value> {
    if a in db.outputs then db.outputs[a] else map[]
  }

  function LoadAttempt(db: Db, a: Id): Attempt
    requires a in db.attempts
  {
    var row := db.attempts[a];
    var error := if row.error.Some? then row.error.value else ErrorRow("", "", "");
    Attempt(row.node, row.sequence, row.kind, row.state, row.version,
            if row.state.Terminal() then Some(AttemptResult(row.state, OutputsAt(db, a), error.code, error.message, error.field)) else None)
  }

  function LoadNode(d: Doc, db: Db, n: Id): NodeRun
    requires n in db.nodes
  {
    Refilled(d, db.run, NodeEntry(n, db.nodes[n].(outputs := OutputsAt(db, db.nodes[n].effective))))
  }

  function LoadNodes(d: Doc, db: Db): map<Id, NodeRun> {
    map n | n in db.nodes :: LoadNode(d, db, n)
  }

  function LoadAttempts(db: Db): map<Id, Attempt> {
    map a | a in db.attempts :: LoadAttempt(db, a)
  }

  // The engine state that the rows stand for.
  function Load(d: Doc, db: Db): State {
    State(db.run, LoadNodes(d, db), LoadAttempts(db), Rebuilt(d, LoadNodes(d, db)))
  }

  // ---------------------------------------------------------------- dispatch

  function Dispatch(db: Db, n: Id, version: nat, a: Id, now: Time): Result<Db> {
    if !db.run.state.RunRunning? || db.run.termination.Some? || db.run.command.deadlineAt <= now || n !in db.nodes then Err
    else if !db.nodes[n].state.Ready? || db.nodes[n].version != version || a in db.attempts then Err
    else
      var node :- db.nodes[n].QueueAttempt(a);
      var attempt :- NewAttempt(n, node.nextSeq, db.nodes[n].nextKind);
      Ok(db.(nodes := db.nodes[n := node],
             attempts := db.attempts[a := AttemptRow(n, attempt.sequence, attempt.kind, attempt.state, attempt.version, None, "", "", 0, 0)],
             tasks := db.tasks + {a}))
  }

  // ---------------------------------------------------------------- leases

  datatype Grip = Grip(token: Id, owner: Id, fencing: nat, expiresAt: Time)

  // A worker takes a queued attempt under a fresh token, or is told again of the lease it still holds.
  function Claim(db: Db, a: Id, sequence: nat, worker: Id, token: Id, capable: bool, until: Time, now: Time): Result<(Db, Grip)> {
    if token == "" || a !in db.attempts || db.attempts[a].node !in db.nodes then Err
    else
      var row := db.attempts[a];
      var node := db.nodes[row.node];
      if row.sequence != sequence || node.current != a || !capable then Err
      else if row.state.AttemptRunning? then
        if row.owner == worker && row.token != "" && row.expiresAt >= now then Ok((db, Grip(row.token, row.owner, row.fencing, row.expiresAt)))
        else Err
      else if !row.state.AttemptQueued? || !node.state.Queued? then Err
      else
        Ok((db.(attempts := db.attempts[a := row.(state := AttemptRunning, version := row.version + 1,
                                                  token := token, owner := worker, fencing := sequence, expiresAt := until)],
                nodes := db.nodes[row.node := node.(state := Running, version := node.version + 1)]),
            Grip(token, worker, sequence, until)))
  }

  predicate HoldsLease(row: AttemptRow, sequence: nat, token: Id, fencing: nat) {
    row.sequence == sequence && row.token != "" && row.token == token && row.fencing == fencing
  }

  function Heartbeat(db: Db, a: Id, sequence: nat, token: Id, fencing: nat, until: Time, now: Time): Result<Db> {
    if a !in db.attempts then Err
    else
      var row := db.attempts[a];
      if !row.state.AttemptRunning? || !HoldsLease(row, sequence, token, fencing) || row.expiresAt < now then Err
      else Ok(db.(attempts := db.attempts[a := row.(expiresAt := until)]))
  }

  // What a worker may report.
  predicate Reportable(r: AttemptResult) {
    r.state.Terminal() && !r.state.AttemptLost? && (r.state.AttemptSucceeded? <==> r.code == "")
  }

  function ErrorOf(r: AttemptResult): Option<ErrorRow> {
    if r.state.AttemptSucceeded? then None else Some(ErrorRow(r.code, r.message, r.field))
  }

  // The report repeats what the rows already say.
  predicate SameCompletion(db: Db, a: Id, r: AttemptResult)
    requires a in db.attempts
  {
    && db.attempts[a].state == r.state
    && (if r.state.AttemptSucceeded? then OutputsAt(db, a) == r.outputs else db.attempts[a].error == ErrorOf(r))
  }

  // The flag says whether the report was new.
  function Complete(db: Db, a: Id, sequence: nat, token: Id, fencing: nat, r: AttemptResult, now: Time): Result<(Db, bool)> {
    if !Reportable(r) || a !in db.attempts || db.attempts[a].node !in db.nodes then Err
    else
      var row := db.attempts[a];
      if !HoldsLease(row, sequence, token, fencing) then Err
      else if row.state.Terminal() then (if SameCompletion(db, a, r) then Ok((db, false)) else Err)
      else if db.nodes[row.node].current != a || !row.state.AttemptRunning? || row.expiresAt < now then Err
      else
        Ok((db.(attempts := db.attempts[a := row.(state := r.state, version := row.version + 1, error := ErrorOf(r))],
                outputs := if r.state.AttemptSucceeded? then db.outputs[a := r.outputs] else db.outputs), true))
  }

  const LEASE_LOST := AttemptResult(AttemptLost, map[], "LEASE_LOST", "attempt lease expired", "")

  function MarkExpiredLost(db: Db, a: Id, sequence: nat, now: Time): Result<(Db, bool)> {
    if a !in db.attempts || db.attempts[a].node !in db.nodes then Err
    else
      var row := db.attempts[a];
      if row.sequence != sequence || db.nodes[row.node].current != a then Err
      else if row.state.AttemptLost? then Ok((db, false))
      else if !row.state.AttemptRunning? || row.expiresAt > now then Err
      else Ok((db.(attempts := db.attempts[a := row.(state := AttemptLost, version := row.version + 1, error := ErrorOf(LEASE_LOST))]), true))
  }

  // ---------------------------------------------------------------- advancing

  datatype Event = AttemptOver(attempt: Id, at: Time) | RetryTimer(attempt: Id, at: Time) | CancelAsked(at: Time) | DeadlineTimer(at: Time)

  // A durable request to cancel that came before the deadline wins over it.
  predicate CancelWins(db: Db) {
    db.cancelRequestedAt != 0 && db.cancelRequestedAt <= db.run.command.deadlineAt
  }

  // The operation that an event stands for, once cancellation and deadline have had their say.
  function OpFor(db: Db, e: Event, now: Time): Option<Op> {
    if db.run.termination.None? && CancelWins(db) then Some(Cancel(db.cancelRequestedAt))
    else if db.run.termination.None? && now >= db.run.command.deadlineAt then Some(Deadline(now))
    else
      match e
      case AttemptOver(a, at) => Some(Completed(a, at))
      case RetryTimer(a, at) => if a in db.attempts then Some(Due(db.attempts[a].node, at)) else None
      case CancelAsked(at) => Some(Cancel(at))
      case DeadlineTimer(at) => Some(Deadline(at))
  }

  function Stored(node: NodeRun): NodeRun {
    node.(outputs := map[])
  }

  // A row is written only when the version of the record changed.
  function Written(row: NodeRun, before: NodeRun, after: NodeRun): NodeRun {
    if after.version == before.version then row else Stored(after)
  }

  function WrittenNodes(rows: map<Id, NodeRun>, before: map<Id, NodeRun>, after: map<Id, NodeRun>): map<Id, NodeRun>
    requires after.Keys == before.Keys == rows.Keys
  {
    map n | n in rows :: Written(rows[n], before[n], after[n])
  }

  // Writes back the rows whose version changed.
  function AdvanceRun(db: Db, before: State, after: State): Db
    requires after.nodes.Keys == before.nodes.Keys == db.nodes.Keys
  {
    db.(nodes := WrittenNodes(db.nodes, before.nodes, after.nodes),
        run := if after.run.version == before.run.version then db.run else after.run)
  }

  // One event, handled in one transaction; an operation that fails rolls everything back.
  ghost function Advance(d: Doc, db: Db, e: Event, now: Time): Db
    requires Fits(d, Load(d, db))
  {
    var s := Load(d, db);
    if db.run.state.Terminal() then db
    else
      match OpFor(db, e, now)
      case None => db
      case Some(op) =>
        var t := Apply(d, s, op);
        if t.nodes.Keys == s.nodes.Keys then AdvanceRun(db, s, t) else db
  }

  // The first request to cancel is remembered; later ones change nothing.
  function RequestCancellation(db: Db, at: Time): Result<(Db, bool)> {
    if db.run.state.Terminal() || db.cancelRequestedAt != 0 then Ok((db, false))
    else if at == 0 || at < db.run.command.createdAt then Err
    else Ok((db.(cancelRequestedAt := at), true))
  }

  // The rows that initializing a run with state s inserts.
  function Initialized(s: State): Db {
    Db(s.run, 0, map n | n in s.nodes :: Stored(s.nodes[n]), map[], map[], {})
  }
}
