/**
 Whole histories of the database: any interleaving of dispatch, claim, heartbeat, completion, lost
 leases, cancellation requests and advancement, with a crash meaning that a transaction did not
 happen.
 */
module StoreRuns {
  import opened Ids
  import opened Json
  import opened Runtime
  import opened Workflow
  import opened EngineSpec
  import opened EngineInvariants
  import opened EngineDrive
  import opened EngineSafety
  import opened EngineContinuity
  import opened EngineRestore
  import opened EngineOutputs
  import opened AttemptStore
  import opened StoreSafety

  // ---------------------------------------------------------------- the first rows

  // What initialization inserts loads as the state the engine started with.
  lemma InitialLoads(d: Doc, c: Command)
    requires New(d, c).Ok?
    ensures LoadNodes(d, Initialized(New(d, c).value)) == New(d, c).value.nodes
  {
    hide ValidDoc, Inv, Drive, Seeded, ValidCommand, Driving;
    NewKeeps(d, c);
    NewSourced(d, c);
    EntryFilled(d, c);
    var s := New(d, c).value;
    var db := Initialized(s);
    forall n | n in s.nodes ensures LoadNode(d, db, n) == s.nodes[n] {
      SourcedNode(d, s, n);
      Roles(d, s, n);
    }
  }

  lemma EntryFilled(d: Doc, c: Command)
    requires New(d, c).Ok?
    ensures var s := New(d, c).value;
            && d.entry in s.nodes && s.nodes[d.entry].state.Succeeded? && s.nodes[d.entry].effective == ""
            && s.nodes[d.entry].outputs == map["workflow_input" := c.input] && s.run.command == c
  {
    hide ValidDoc, Driving, Inv, Drive, Seeded, ValidCommand;
    NewKeeps(d, c);
    SeededKeeps(d, c);
    DocNames(d);
    SeededShape(d, c);
    DriveContinues(d, Seeded(d, c).value, 0);
    assert Driven(Seeded(d, c).value.nodes[d.entry], New(d, c).value.nodes[d.entry]);
  }

  lemma InitialSound(d: Doc, c: Command)
    requires New(d, c).Ok?
    ensures Sound(d, Initialized(New(d, c).value)) && Twin(New(d, c).value, Load(d, Initialized(New(d, c).value)))
  {
    hide Inv, AllSourced, EntryKept, LoadNodes, New, Rebuilt, Twin;
    var s := New(d, c).value;
    var db := Initialized(s);
    NewKeeps(d, c);
    NewSourced(d, c);
    EntryKeptByNew(d, c);
    InitialLoads(d, c);
    LoadParts(d, db);
    assert LoadAttempts(db) == map[];
    RestoreGivesTwin(d, s);
    var u := s.(edges := Rebuilt(d, s.nodes));
    TwinIsSound(d, s, u);
    InvFits(d, s);
    SourcedSame(d, s, u);
    EntrySame(d, s, u);
  }

  // ---------------------------------------------------------------- histories

  ghost predicate IsHistory(d: Doc, c: Command, txs: seq<(Tx, Time)>, dbs: seq<Db>) {
    && |dbs| == |txs| + 1 && New(d, c).Ok? && dbs[0] == Initialized(New(d, c).value)
    && forall i :: 0 <= i < |txs| ==> Leads(d, dbs[i], txs[i].0, txs[i].1, dbs[i + 1])
  }

  ghost predicate Leads(d: Doc, db: Db, tx: Tx, now: Time, db2: Db) {
    Fits(d, Load(d, db)) && db2 == Take(d, db, tx, now)
  }

  lemma {:induction false} SoundAlways(d: Doc, c: Command, txs: seq<(Tx, Time)>, dbs: seq<Db>, i: nat)
    requires IsHistory(d, c, txs, dbs) && i < |dbs|
    ensures Sound(d, dbs[i])
  {
    hide Sound, Take, New, Load;
    if i == 0 {
      InitialSound(d, c);
    } else {
      SoundAlways(d, c, txs, dbs, i - 1);
      assert Leads(d, dbs[i - 1], txs[i - 1].0, txs[i - 1].1, dbs[i]);
      TakeSound(d, dbs[i - 1], txs[i - 1].0, txs[i - 1].1);
    }
  }

  // Every sequence of transactions has a history.
  lemma {:induction false} HistoryExists(d: Doc, c: Command, txs: seq<(Tx, Time)>) returns (dbs: seq<Db>)
    requires New(d, c).Ok?
    ensures IsHistory(d, c, txs, dbs)
    decreases |txs|
  {
    hide Sound, Take, New, Load;
    if txs == [] {
      dbs := [Initialized(New(d, c).value)];
    } else {
      var rest, last := txs[..|txs| - 1], txs[|txs| - 1];
      var before := HistoryExists(d, c, rest);
      SoundAlways(d, c, rest, before, |rest|);
      LoadFits(d, before[|rest|]);
      dbs := before + [Take(d, before[|rest|], last.0, last.1)];
      forall i | 0 <= i < |txs| ensures Leads(d, dbs[i], txs[i].0, txs[i].1, dbs[i + 1]) {
        if i < |rest| { assert Leads(d, before[i], rest[i].0, rest[i].1, before[i + 1]); }
      }
    }
  }

  // Whatever the interleaving, the rows always stand for a state that one uninterrupted engine reaches by
  // some operations; so every theorem about engine runs holds of them.
  lemma {:induction false} RowsFollowEngine(d: Doc, c: Command, txs: seq<(Tx, Time)>, dbs: seq<Db>, i: nat)
    returns (ops: seq<Op>, states: seq<State>)
    requires IsHistory(d, c, txs, dbs) && i < |dbs|
    ensures IsRun(d, c, ops, states) && Twin(states[|states| - 1], Load(d, dbs[i]))
  {
    hide Sound, Take, New, Load, Apply, Inv, Twin;
    if i == 0 {
      InitialSound(d, c);
      ops, states := [], [New(d, c).value];
    } else {
      ops, states := RowsFollowEngine(d, c, txs, dbs, i - 1);
      SoundAlways(d, c, txs, dbs, i - 1);
      var db, tx, now := dbs[i - 1], txs[i - 1].0, txs[i - 1].1;
      assert Leads(d, db, tx, now, dbs[i]);
      TakeSound(d, db, tx, now);
      var op := Meaning(db, tx, now);
      if Load(d, dbs[i]) != Load(d, db) {
        var last := states[|states| - 1];
        InvAlways(d, c, ops, states, |states| - 1);
        ApplyTwin(d, last, Load(d, db), op.value);
        TwinTransitive(Apply(d, last, op.value), Apply(d, Load(d, db), op.value), Load(d, dbs[i]));
        ExtendRun(d, c, ops, states, op.value);
        ops, states := ops + [op.value], states + [Apply(d, last, op.value)];
      }
    }
  }

  lemma TwinTransitive(s: State, t: State, u: State)
    requires Twin(s, t) && Twin(t, u)
    ensures Twin(s, u)
  {
  }

  lemma ExtendRun(d: Doc, c: Command, ops: seq<Op>, states: seq<State>, op: Op)
    requires IsRun(d, c, ops, states) && Fits(d, states[|states| - 1])
    ensures IsRun(d, c, ops + [op], states + [Apply(d, states[|states| - 1], op)])
  {
    hide Apply, New;
    var os, ss := ops + [op], states + [Apply(d, states[|states| - 1], op)];
    forall i | 0 <= i < |os| ensures Follows(d, ss[i], os[i], ss[i + 1]) {
      if i < |ops| { assert Follows(d, states[i], ops[i], states[i + 1]); }
    }
  }

  // ---------------------------------------------------------------- attempts

  // What is known of attempt a once it is over: its state, error and output.
  ghost predicate SameOutcome(db: Db, db2: Db, a: Id) {
    a in db.attempts && a in db2.attempts && db2.attempts[a] == db.attempts[a] && (a in db2.outputs <==> a in db.outputs) && OutputsAt(db2, a) == OutputsAt(db, a)
  }

  // No transaction touches an attempt that is over.
  lemma OverIsFinal(d: Doc, db: Db, tx: Tx, now: Time, a: Id)
    requires Fits(d, Load(d, db)) && a in db.attempts && db.attempts[a].state.Terminal()
    ensures SameOutcome(db, Take(d, db, tx, now), a)
  {
    hide Load, Apply, Fits;
  }

  // An attempt leaves the running state at most once, and its outcome never changes.
  lemma {:induction false} OutcomeIsFinal(d: Doc, c: Command, txs: seq<(Tx, Time)>, dbs: seq<Db>, i: nat, j: nat, a: Id)
    requires IsHistory(d, c, txs, dbs) && i <= j < |dbs| && a in dbs[i].attempts && dbs[i].attempts[a].state.Terminal()
    ensures SameOutcome(dbs[i], dbs[j], a)
    decreases j
  {
    hide Take, New, Load;
    if i < j {
      OutcomeIsFinal(d, c, txs, dbs, i, j - 1, a);
      assert Leads(d, dbs[j - 1], txs[j - 1].0, txs[j - 1].1, dbs[j]);
      OverIsFinal(d, dbs[j - 1], txs[j - 1].0, txs[j - 1].1, a);
    }
  }

  // In every state of every history: a node has at most one attempt queued or running, the attempts with
  // an output are exactly those that succeeded, and every attempt was handed out as a task.
  lemma RowsInOrder(d: Doc, c: Command, txs: seq<(Tx, Time)>, dbs: seq<Db>, i: nat)
    requires IsHistory(d, c, txs, dbs) && i < |dbs|
    ensures var db := dbs[i];
            && (forall a, b :: Out(db, a) && Out(db, b) && db.attempts[a].node == db.attempts[b].node ==> a == b)
            && (forall a :: a in db.outputs <==> a in db.attempts && db.attempts[a].state.AttemptSucceeded?)
            && db.tasks == db.attempts.Keys
  {
    hide IsHistory, ValidDoc, AllSourced, EntryKept, RunOk, NodeOk, Load;
    SoundAlways(d, c, txs, dbs, i);
    var db := dbs[i];
    assert forall a :: a in db.attempts ==> RowOk(db, a);
    forall a | Out(db, a) ensures db.attempts[a].node in db.nodes && db.nodes[db.attempts[a].node].current == a {
      OutIsCurrent(d, db, a);
    }
  }

  // Attempt a is queued or running.
  ghost predicate Out(db: Db, a: Id) {
    a in db.attempts && !db.attempts[a].state.Terminal()
  }

  lemma OutIsCurrent(d: Doc, db: Db, a: Id)
    requires Sound(d, db) && Out(db, a)
    ensures db.attempts[a].node in db.nodes && db.nodes[db.attempts[a].node].current == a
  {
    hide Inv, AllSourced, EntryKept, RowsOk, Core, ValidDoc, NodeOk;
    LoadedAttempt(d, db, a);
    LoadedNode(d, db, db.attempts[a].node);
    InvFacts(d, Load(d, db));
    AttemptFacts(d, Load(d, db), a);
  }

  // A result that comes under a lease already marked lost is refused, then and ever after.
  lemma LostIsNeverAccepted(d: Doc, c: Command, txs: seq<(Tx, Time)>, dbs: seq<Db>, i: nat, j: nat, a: Id,
                            sequence: nat, token: Id, fencing: nat, r: AttemptResult, now: Time)
    requires IsHistory(d, c, txs, dbs) && i <= j < |dbs| && a in dbs[i].attempts && dbs[i].attempts[a].state.AttemptLost?
    ensures Complete(dbs[j], a, sequence, token, fencing, r, now).Err?
  {
    hide IsHistory;
    OutcomeIsFinal(d, c, txs, dbs, i, j, a);
  }

  // A request to cancel that is on record and not later than the deadline wins: the next event, whatever
  // it is, makes it the intent of a run that has none.
  lemma CancellationWins(d: Doc, db: Db, e: Event, now: Time)
    requires Sound(d, db) && db.run.termination.None? && db.run.state.RunRunning?
    requires CancelWins(db) && db.cancelRequestedAt >= db.run.command.createdAt
    ensures Fits(d, Load(d, db))
    ensures Advance(d, db, e, now).run.termination
            == Some(Intent(CanceledKind, db.cancelRequestedAt, Failure(RUN_CANCELED, "run_control", "", "", "")))
  {
    hide Inv, AllSourced, EntryKept, RowsOk, Load, Advance, Advanced, RequestStop, Rebuilt;
    LoadFits(d, db);
    SoundRows(d, db);
    AdvanceIs(d, db, e, now);
    var intent := Intent(CanceledKind, db.cancelRequestedAt, Failure(RUN_CANCELED, "run_control", "", "", ""));
    RequestStopKeeps(d, Load(d, db), intent);
    AdvanceRefines(d, db, Cancel(db.cancelRequestedAt));
    LoadParts(d, Advance(d, db, e, now));
  }

  ghost function CancelIntent(db: Db): Intent {
    Intent(CanceledKind, db.cancelRequestedAt, Failure(RUN_CANCELED, "run_control", "", "", ""))
  }

  // Only advancing touches the run, and only the first request is remembered.
  lemma OtherTransactions(d: Doc, db: Db, tx: Tx, now: Time)
    requires Fits(d, Load(d, db))
    ensures var db2 := Take(d, db, tx, now);
            && (!tx.DoAdvance? ==> db2.run == db.run)
            && (db2.cancelRequestedAt == db.cancelRequestedAt || (db.cancelRequestedAt == 0 && db2.cancelRequestedAt >= db.run.command.createdAt))
  {
    hide Load, Apply, Fits, WrittenNodes, QueueNode;
  }

  lemma CommandStays(d: Doc, db: Db, tx: Tx, now: Time)
    requires Sound(d, db)
    ensures Fits(d, Load(d, db)) && Take(d, db, tx, now).run.command == db.run.command
  {
    hide Sound, Load, Inv, Take, Twin;
    LoadFits(d, db);
    TakeSound(d, db, tx, now);
    OtherTransactions(d, db, tx, now);
    var db2 := Take(d, db, tx, now);
    LoadParts(d, db);
    LoadParts(d, db2);
    if tx.DoAdvance? && Load(d, db2) != Load(d, db) {
      SoundRows(d, db);
      CommandApplied(d, Load(d, db), tx.event, db, now);
      TwinRuns(Apply(d, Load(d, db), OpFor(db, tx.event, now).value), Load(d, db2));
    }
  }

  lemma TwinRuns(s: State, t: State)
    requires Twin(s, t)
    ensures s.run == t.run
  {
  }

  lemma CommandApplied(d: Doc, s: State, e: Event, db: Db, now: Time)
    requires Inv(d, s) && OpFor(db, e, now).Some?
    ensures Fits(d, s) && Apply(d, s, OpFor(db, e, now).value).run.command == s.run.command
  {
    hide Inv, HandleCompleted, RetryDue, RequestStop;
    InvFits(d, s);
    match OpFor(db, e, now).value
    case Completed(a, at) => HandleKeeps(d, s, a, at);
    case Due(n, at) => RetryDueKeeps(d, s, n, at);
    case Cancel(at) => RequestStopKeeps(d, s, Intent(CanceledKind, at, Failure(RUN_CANCELED, "run_control", "", "", "")));
    case Deadline(at) => RequestStopKeeps(d, s, Intent(TimedOutKind, at, Failure(RUN_TIMED_OUT, "run_deadline", "", "", "")));
    case _ =>
  }

  lemma {:induction false} RequestsInTime(d: Doc, c: Command, txs: seq<(Tx, Time)>, dbs: seq<Db>, i: nat)
    requires IsHistory(d, c, txs, dbs) && i < |dbs|
    ensures dbs[i].run.command == c && (dbs[i].cancelRequestedAt != 0 ==> dbs[i].cancelRequestedAt >= c.createdAt)
  {
    hide Sound, Take, New, Load;
    if i == 0 {
      NewKeeps(d, c);
    } else {
      RequestsInTime(d, c, txs, dbs, i - 1);
      SoundAlways(d, c, txs, dbs, i - 1);
      assert Leads(d, dbs[i - 1], txs[i - 1].0, txs[i - 1].1, dbs[i]);
      CommandStays(d, dbs[i - 1], txs[i - 1].0, txs[i - 1].1);
      OtherTransactions(d, dbs[i - 1], txs[i - 1].0, txs[i - 1].1);
    }
  }

  // An intent that is on record stays.
  lemma IntentStays(d: Doc, db: Db, tx: Tx, now: Time)
    requires Sound(d, db) && db.run.termination.Some?
    ensures Fits(d, Load(d, db)) && Take(d, db, tx, now).run.termination == db.run.termination
  {
    hide Sound, Load, Inv, Take, Twin, Apply;
    LoadFits(d, db);
    TakeSound(d, db, tx, now);
    SoundRows(d, db);
    var db2 := Take(d, db, tx, now);
    LoadParts(d, db);
    LoadParts(d, db2);
    if Load(d, db2) != Load(d, db) {
      var op := Meaning(db, tx, now).value;
      ApplyKeeps(d, Load(d, db), op);
      TwinRuns(Apply(d, Load(d, db), op), Load(d, db2));
    }
  }

  // Once a request to cancel that wins over the deadline is on record for a run without an intent, the first
  // intent ever recorded is that cancellation, whatever comes in between.
  lemma {:induction false} CancellationIsFirst(d: Doc, c: Command, txs: seq<(Tx, Time)>, dbs: seq<Db>, i: nat, j: nat)
    requires IsHistory(d, c, txs, dbs) && i <= j < |dbs|
    requires dbs[i].run.termination.None? && dbs[i].run.state.RunRunning? && CancelWins(dbs[i])
    ensures dbs[j].run.termination == Some(CancelIntent(dbs[i]))
            || (dbs[j].run == dbs[i].run && dbs[j].cancelRequestedAt == dbs[i].cancelRequestedAt)
    decreases j
  {
    hide Sound, Take, New, Load, Advance;
    if i < j {
      CancellationIsFirst(d, c, txs, dbs, i, j - 1);
      SoundAlways(d, c, txs, dbs, j - 1);
      RequestsInTime(d, c, txs, dbs, j - 1);
      var db, tx, now := dbs[j - 1], txs[j - 1].0, txs[j - 1].1;
      assert Leads(d, db, tx, now, dbs[j]);
      if db.run.termination.Some? {
        IntentStays(d, db, tx, now);
      } else {
        OtherTransactions(d, db, tx, now);
        if tx.DoAdvance? {
          CancellationWins(d, db, tx.event, now);
          AdvanceTaken(d, db, tx.event, now);
        }
      }
    }
  }

  lemma AdvanceTaken(d: Doc, db: Db, e: Event, now: Time)
    requires Fits(d, Load(d, db))
    ensures Take(d, db, DoAdvance(e), now) == Advance(d, db, e, now)
  {
    hide Advance, Load;
  }
}
