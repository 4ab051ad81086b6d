/**
 The rows of a run together with the outbox, the broker and the inbox.  A transaction that produces an event
 writes its rows and the event at once; relays publish events and may crash; the broker delivers what was
 published any number of times and in any order; the engine's consumer remembers an event and advances the
 run in one transaction, or does neither.
 */
module Delivery {
  import opened Ids
  import opened Json
  import opened Runtime
  import opened Workflow
  import opened EngineSpec
  import opened EngineInvariants
  import opened EngineDrive
  import opened EngineSafety
  import opened EngineContinuity
  import U = EngineRuns
  import opened EngineRestore
  import opened AttemptStore
  import M = Relay
  import S = StoreSafety
  import R = StoreRuns

  // events holds what the outbox rows say, by event id.
  datatype World = World(db: Db, mail: M.System, events: map<Id, Event>, inbox: set<Id>)

  // ---------------------------------------------------------------- producing events

  // The event that a transaction writes beside its rows; at is the clock of the service that runs it.
  function Emits(db: Db, tx: S.Tx, at: Time, now: Time): Option<Event> {
    match tx
    case DoComplete(a, sequence, token, fencing, r) =>
      (match Complete(db, a, sequence, token, fencing, r, now)
       case Ok((_, accepted)) => if accepted then Some(AttemptOver(a, at)) else None
       case Err => None)
    case DoMarkLost(a, sequence) =>
      (match MarkExpiredLost(db, a, sequence, now)
       case Ok((_, marked)) => if marked then Some(AttemptOver(a, at)) else None
       case Err => None)
    case DoRequestCancellation(t) =>
      (match RequestCancellation(db, t)
       case Ok((_, applied)) => if applied then Some(CancelAsked(t)) else None
       case Err => None)
    case _ => None
  }

  // An event that does not validate, or whose id is taken, fails its transaction.
  predicate Insertable(w: World, e: Id, content: Event) {
    e != "" && e !in w.events && content.at != 0
  }

  function Inserted(w: World, e: Id, content: Event, now: Time): World {
    w.(mail := M.Take(w.mail, M.Insert(e, now), now), events := w.events[e := content])
  }

  // Recovery repeats a signal only while the rows still call for it.
  predicate Actionable(db: Db, content: Event, now: Time) {
    match content
    case AttemptOver(a, _) =>
      && a in db.attempts && db.attempts[a].state.Terminal() && db.run.state.RunRunning?
      && db.attempts[a].node in db.nodes && db.nodes[db.attempts[a].node].current == a && AtWork(db.nodes[db.attempts[a].node])
    case RetryTimer(a, _) =>
      && db.run.state.RunRunning? && db.run.termination.None? && db.run.command.deadlineAt > now
      && exists n :: n in db.nodes && db.nodes[n].current == a && db.nodes[n].state.RetryWait? && db.nodes[n].nextRetryAt <= now
    case CancelAsked(_) => !db.run.state.Terminal() && db.cancelRequestedAt != 0
    case DeadlineTimer(_) => !db.run.state.Terminal() && db.run.command.deadlineAt <= now
  }

  // ---------------------------------------------------------------- consuming events

  ghost predicate Fails(d: Doc, s: State, op: Op)
    requires Fits(d, s)
  {
    match op
    case Completed(a, at) => HandleCompleted(d, s, a, at).Err?
    case Due(n, at) => RetryDue(d, s, n, at).Err?
    case Cancel(at) => RequestCancel(d, s, at).Err?
    case Deadline(at) => DeadlineReached(d, s, at).Err?
    case _ => false
  }

  // What an event makes of the rows; an operation that fails makes the transaction fail.
  ghost function Consume(d: Doc, db: Db, content: Event, now: Time): Result<Db>
    requires Fits(d, Load(d, db))
  {
    if !db.run.state.Terminal() && OpFor(db, content, now).Some? && Fails(d, Load(d, db), OpFor(db, content, now).value) then Err
    else Ok(Advance(d, db, content, now))
  }

  // ---------------------------------------------------------------- steps

  datatype Step =
    | Write(tx: S.Tx, event: Id, at: Time)
    | Wake(event: Id, content: Event)
    | Post(step: M.Step)
    | Deliver(event: Id)

  predicate RolledBack(w: World, tx: S.Tx, e: Id, at: Time, now: Time) {
    tx.DoAdvance? || (Emits(w.db, tx, at, now).Some? && !Insertable(w, e, Emits(w.db, tx, at, now).value))
  }

  ghost function Take(d: Doc, w: World, step: Step, now: Time): World
    requires Fits(d, Load(d, w.db))
  {
    match step
    case Write(tx, e, at) =>
      if RolledBack(w, tx, e, at, now) then w
      else
        var content := Emits(w.db, tx, at, now);
        var written := w.(db := S.Take(d, w.db, tx, now));
        if content.None? then written else Inserted(written, e, content.value, now)
    case Wake(e, content) => if Insertable(w, e, content) && Actionable(w.db, content, now) then Inserted(w, e, content, now) else w
    case Post(step) => if step.Insert? then w else w.(mail := M.Take(w.mail, step, now))
    case Deliver(e) =>
      if e !in w.mail.log || e !in w.events || e in w.inbox then w
      else
        match Consume(d, w.db, w.events[e], now)
        case Err => w
        case Ok(db) => w.(db := db, inbox := w.inbox + {e})
  }

  // ---------------------------------------------------------------- histories

  ghost function First(d: Doc, c: Command): World
    requires New(d, c).Ok?
  {
    World(Initialized(New(d, c).value), M.EMPTY, map[], {})
  }

  ghost predicate IsHistory(d: Doc, c: Command, steps: seq<(Step, Time)>, ws: seq<World>) {
    && |ws| == |steps| + 1 && New(d, c).Ok? && ws[0] == First(d, c)
    && forall i :: 0 <= i < |steps| ==> Leads(d, ws[i], steps[i].0, steps[i].1, ws[i + 1])
  }

  ghost predicate Leads(d: Doc, w: World, step: Step, now: Time, w2: World) {
    Fits(d, Load(d, w.db)) && w2 == Take(d, w, step, now)
  }

  // The transactions on the rows that one step amounts to.
  ghost function Effect(w: World, step: Step, now: Time, w2: World): seq<(S.Tx, Time)> {
    match step
    case Write(tx, e, at) => if RolledBack(w, tx, e, at, now) then [] else [(tx, now)]
    case Deliver(e) => if e in w.inbox || e !in w2.inbox || e !in w.events then [] else [(S.DoAdvance(w.events[e]), now)]
    case _ => []
  }

  // The transactions that took effect: all writes that were not rolled back, and of all deliveries of an event
  // the one that was accepted.
  ghost function Committed(steps: seq<(Step, Time)>, ws: seq<World>, i: nat): seq<(S.Tx, Time)>
    requires i <= |steps| && |ws| == |steps| + 1
  {
    if i == 0 then [] else Committed(steps, ws, i - 1) + Effect(ws[i - 1], steps[i - 1].0, steps[i - 1].1, ws[i])
  }

  // The events that took effect, in order.
  ghost function Accepted(steps: seq<(Step, Time)>, ws: seq<World>, i: nat): seq<Id>
    requires i <= |steps| && |ws| == |steps| + 1
  {
    if i == 0 then []
    else
      var step := steps[i - 1].0;
      Accepted(steps, ws, i - 1) + if step.Deliver? && step.event !in ws[i - 1].inbox && step.event in ws[i].inbox then [step.event] else []
  }

  // ---------------------------------------------------------------- the rows are those of once

  // The inbox only holds what the broker was given, and the broker only what the outbox holds.
  ghost predicate Tidy(w: World) {
    M.Ok(w.mail) && w.mail.rows.Keys == w.events.Keys && w.inbox <= w.events.Keys && forall e :: e in w.inbox ==> e in w.mail.log
  }

  lemma TakeTidy(d: Doc, w: World, step: Step, now: Time)
    requires Tidy(w) && Fits(d, Load(d, w.db))
    ensures Tidy(Take(d, w, step, now))
  {
    hide Load, Fits, Consume, S.Take, Emits, Actionable, M.Ok;
    match step
    case Write(tx, e, at) => M.TakeOk(w.mail, M.Insert(e, now), now); M.TakeGrows(w.mail, M.Insert(e, now), now);
    case Wake(e, content) => M.TakeOk(w.mail, M.Insert(e, now), now); M.TakeGrows(w.mail, M.Insert(e, now), now);
    case Post(s) => if !s.Insert? { PostTidy(w, s, now); }
    case Deliver(e) =>
  }

  lemma PostTidy(w: World, step: M.Step, now: Time)
    requires Tidy(w) && !step.Insert?
    ensures Tidy(w.(mail := M.Take(w.mail, step, now)))
  {
    M.TakeOk(w.mail, step, now);
    M.TakeGrows(w.mail, step, now);
    hide M.Ok;
  }

  // What a step does to the rows, its effect does as transactions.
  lemma EffectTaken(d: Doc, w: World, step: Step, now: Time)
    requires Fits(d, Load(d, w.db)) && w.inbox <= w.events.Keys
    ensures var w2 := Take(d, w, step, now);
            && (Effect(w, step, now, w2) == [] ==> w2.db == w.db)
            && (Effect(w, step, now, w2) != [] ==> exists tx :: Effect(w, step, now, w2) == [(tx, now)] && w2.db == S.Take(d, w.db, tx, now))
  {
    hide Load, Fits, Emits, Actionable, M.Take, Fails;
    if step.Deliver? && step.event in w.mail.log && step.event in w.events && step.event !in w.inbox {
      R.AdvanceTaken(d, w.db, w.events[step.event], now);
      hide S.Take, Advance;
    }
  }

  // However often events are published and delivered, and whatever crashes: the rows are those of the history
  // in which every write that was not rolled back happens once, and every accepted event is handled once.
  lemma {:induction false} RowsOfOnce(d: Doc, c: Command, steps: seq<(Step, Time)>, ws: seq<World>, i: nat) returns (dbs: seq<Db>)
    requires IsHistory(d, c, steps, ws) && i < |ws|
    ensures R.IsHistory(d, c, Committed(steps, ws, i), dbs) && dbs[|dbs| - 1] == ws[i].db
    ensures Tidy(ws[i])
  {
    hide New, Load, Take, S.Take, Effect, Tidy;
    if i == 0 {
      dbs := [Initialized(New(d, c).value)];
      FirstTidy(d, c);
    } else {
      var w, step, now := ws[i - 1], steps[i - 1].0, steps[i - 1].1;
      dbs := RowsOfOnce(d, c, steps, ws, i - 1);
      assert Leads(d, w, step, now, ws[i]);
      TakeTidy(d, w, step, now);
      InboxInside(w);
      EffectTaken(d, w, step, now);
      var before, effect := Committed(steps, ws, i - 1), Effect(w, step, now, ws[i]);
      if effect == [] {
        assert before + effect == before;
      } else {
        var tx :| effect == [(tx, now)] && ws[i].db == S.Take(d, w.db, tx, now);
        HistoryGrows(d, c, before, dbs, tx, now);
        dbs := dbs + [ws[i].db];
      }
    }
  }

  lemma FirstTidy(d: Doc, c: Command)
    requires New(d, c).Ok?
    ensures Tidy(First(d, c))
  {
  }

  lemma InboxInside(w: World)
    requires Tidy(w)
    ensures w.inbox <= w.events.Keys
  {
  }

  lemma HistoryGrows(d: Doc, c: Command, txs: seq<(S.Tx, Time)>, dbs: seq<Db>, tx: S.Tx, now: Time)
    requires R.IsHistory(d, c, txs, dbs) && Fits(d, Load(d, dbs[|dbs| - 1]))
    ensures R.IsHistory(d, c, txs + [(tx, now)], dbs + [S.Take(d, dbs[|dbs| - 1], tx, now)])
  {
    hide New, Load, S.Take;
    var more, after := txs + [(tx, now)], dbs + [S.Take(d, dbs[|dbs| - 1], tx, now)];
    forall i | 0 <= i < |more| ensures R.Leads(d, after[i], more[i].0, more[i].1, after[i + 1]) {
      if i < |txs| { assert R.Leads(d, dbs[i], txs[i].0, txs[i].1, dbs[i + 1]); }
    }
  }

  // No event takes effect twice, those that do are exactly the ones in the inbox, and all had been published.
  lemma {:induction false} AcceptedOnce(d: Doc, c: Command, steps: seq<(Step, Time)>, ws: seq<World>, i: nat)
    requires IsHistory(d, c, steps, ws) && i < |ws|
    ensures NoDuplicates(Accepted(steps, ws, i)) && Elements(Accepted(steps, ws, i)) == ws[i].inbox
    ensures forall e :: e in ws[i].inbox ==> e in ws[i].mail.log && e in ws[i].events
    ensures forall e :: e in ws[i].mail.rows && ws[i].mail.rows[e].published ==> e in ws[i].mail.log
  {
    hide New, Load, Take, Committed, R.IsHistory;
    var dbs := RowsOfOnce(d, c, steps, ws, i);
    PublishedInLog(ws[i]);
    hide Tidy;
    if i > 0 {
      AcceptedOnce(d, c, steps, ws, i - 1);
      var w, step, now := ws[i - 1], steps[i - 1].0, steps[i - 1].1;
      assert Leads(d, w, step, now, ws[i]);
      InboxGrows(d, w, step, now);
      var before := Accepted(steps, ws, i - 1);
      if step.Deliver? { OneMoreAccepted(before, step.event); }
      assert before + [] == before;
    }
  }

  lemma OneMoreAccepted(before: seq<Id>, e: Id)
    requires NoDuplicates(before)
    ensures Elements(before + [e]) == Elements(before) + {e} && (e !in Elements(before) ==> NoDuplicates(before + [e]))
  {
    assert forall k :: 0 <= k < |before| ==> before[k] in Elements(before);
  }

  lemma PublishedInLog(w: World)
    requires Tidy(w)
    ensures forall e :: e in w.mail.rows && w.mail.rows[e].published ==> e in w.mail.log
    ensures forall e :: e in w.inbox ==> e in w.mail.log && e in w.events
  {
    forall e | e in w.mail.rows && w.mail.rows[e].published ensures e in w.mail.log {
      assert M.RowOk(w.mail, e);
    }
  }

  lemma InboxGrows(d: Doc, w: World, step: Step, now: Time)
    requires Fits(d, Load(d, w.db))
    ensures var w2 := Take(d, w, step, now); w2.inbox == w.inbox || (step.Deliver? && w2.inbox == w.inbox + {step.event})
  {
    hide Load, Fits, Consume, S.Take, Emits, Actionable, M.Take;
  }

  // Once an event took effect, delivering it again changes nothing at all.
  lemma {:induction false} ActsOnce(d: Doc, c: Command, steps: seq<(Step, Time)>, ws: seq<World>, i: nat, j: nat, e: Id, now: Time)
    requires IsHistory(d, c, steps, ws) && i <= j < |ws| && e in ws[i].inbox
    ensures Fits(d, Load(d, ws[j].db)) && e in ws[j].inbox && Take(d, ws[j], Deliver(e), now) == ws[j]
    decreases j
  {
    hide New, Load, Take, S.Sound;
    RowsFit(d, c, steps, ws, j);
    if i < j {
      ActsOnce(d, c, steps, ws, i, j - 1, e, now);
      assert Leads(d, ws[j - 1], steps[j - 1].0, steps[j - 1].1, ws[j]);
      InboxGrows(d, ws[j - 1], steps[j - 1].0, steps[j - 1].1);
    }
    RepeatedDelivery(d, ws[j], e, now);
  }

  lemma RepeatedDelivery(d: Doc, w: World, e: Id, now: Time)
    requires Fits(d, Load(d, w.db)) && e in w.inbox
    ensures Take(d, w, Deliver(e), now) == w
  {
    hide Load, Fits;
  }

  lemma RowsFit(d: Doc, c: Command, steps: seq<(Step, Time)>, ws: seq<World>, i: nat)
    requires IsHistory(d, c, steps, ws) && i < |ws|
    ensures S.Sound(d, ws[i].db) && Fits(d, Load(d, ws[i].db))
  {
    hide New, Load, Take, S.Sound, Committed, Tidy;
    var dbs := RowsOfOnce(d, c, steps, ws, i);
    R.SoundAlways(d, c, Committed(steps, ws, i), dbs, |dbs| - 1);
    S.LoadFits(d, ws[i].db);
  }

  // Every sequence of steps has a history.
  lemma {:induction false} HistoryExists(d: Doc, c: Command, steps: seq<(Step, Time)>) returns (ws: seq<World>)
    requires New(d, c).Ok?
    ensures IsHistory(d, c, steps, ws)
    decreases |steps|
  {
    hide New, Load, Take, S.Sound;
    if steps == [] {
      ws := [First(d, c)];
    } else {
      var rest, last := steps[..|steps| - 1], steps[|steps| - 1];
      var before := HistoryExists(d, c, rest);
      RowsFit(d, c, rest, before, |rest|);
      ws := before + [Take(d, before[|rest|], last.0, last.1)];
      forall i | 0 <= i < |steps| ensures Leads(d, ws[i], steps[i].0, steps[i].1, ws[i + 1]) {
        if i < |rest| { assert Leads(d, before[i], rest[i].0, rest[i].1, before[i + 1]); }
      }
    }
  }

  // ---------------------------------------------------------------- nothing is lost

  // A node still waits for attempt a, though its result is there.
  ghost predicate Unheard(d: Doc, db: Db, a: Id) {
    Open(Load(d, db), a) && Load(d, db).attempts[a].state.Terminal()
  }

  // The request to cancel has not become an intent yet.
  ghost predicate Unanswered(db: Db) {
    db.cancelRequestedAt != 0 && db.run.termination.None? && !db.run.state.Terminal()
  }

  // An event that is not in the inbox tells of the attempt, or of the request.
  ghost predicate ToldOf(w: World, a: Id) {
    exists e :: e in w.events && e !in w.inbox && w.events[e].AttemptOver? && w.events[e].attempt == a
  }

  ghost predicate ToldToCancel(w: World) {
    exists e :: e in w.events && e !in w.inbox && w.events[e].CancelAsked?
  }

  ghost predicate NothingLost(d: Doc, w: World) {
    && (forall a :: Unheard(d, w.db, a) ==> ToldOf(w, a)) && (Unanswered(w.db) ==> ToldToCancel(w))
  }

  // The operations of the engine other than recording open no finished attempt.
  lemma OpensNothing(d: Doc, s: State, op: Op, b: Id)
    requires Inv(d, s) && Fits(d, s) && !op.Record?
    requires Open(Apply(d, s, op), b) && Apply(d, s, op).attempts[b].state.Terminal()
    ensures Open(s, b) && s.attempts[b].state.Terminal()
  {
    hide Inv, HandleCompleted, RetryDue, RequestStop, Continues, Driven;
    var t := Apply(d, s, op);
    match op
    case Queue(n, a) =>
    case Start(a) =>
    case Completed(a, at) =>
      HandleKeeps(d, s, a, at);
      if HandleCompleted(d, s, a, at).Ok? {
        HandleCloses(d, s, a, at);
        ContinuesOpen(s, t, b);
      }
    case Due(n, at) =>
      RetryDueKeeps(d, s, n, at);
      RetryDueContinues(d, s, n, at);
      if RetryDue(d, s, n, at).Ok? { ContinuesOpen(s, t, b); }
    case Cancel(at) => StopOpens(d, s, Intent(CanceledKind, at, Failure(RUN_CANCELED, "run_control", "", "", "")), b);
    case Deadline(at) => StopOpens(d, s, Intent(TimedOutKind, at, Failure(RUN_TIMED_OUT, "run_deadline", "", "", "")), b);
  }

  lemma ContinuesOpen(s: State, t: State, b: Id)
    requires Continues(s, t) && t.attempts == s.attempts && Open(t, b)
    ensures Open(s, b)
  {
    assert Driven(s.nodes[s.attempts[b].node], t.nodes[s.attempts[b].node]);
  }

  lemma StopOpens(d: Doc, s: State, intent: Intent, b: Id)
    requires Inv(d, s) && Fits(d, s) && intent.cause.code != ""
    ensures RequestStop(d, s, intent).Ok? ==>
              var t := RequestStop(d, s, intent).value.0; t.attempts == s.attempts && (Open(t, b) ==> Open(s, b))
  {
    hide Inv, RequestStop, Continues, Open;
    RequestStopKeeps(d, s, intent);
    StopContinues(d, s, intent);
    if RequestStop(d, s, intent).Ok? && Open(RequestStop(d, s, intent).value.0, b) {
      ContinuesOpen(s, RequestStop(d, s, intent).value.0, b);
    }
  }

  lemma OpenTwin(s: State, t: State, b: Id)
    requires Twin(s, t)
    ensures Open(s, b) <==> Open(t, b)
    ensures t.attempts == s.attempts
  {
  }

  // A transaction leaves a node waiting for a finished attempt only if it did before, or just finished it.
  lemma UnheardBefore(d: Doc, db: Db, tx: S.Tx, now: Time, b: Id)
    requires S.Sound(d, db) && Fits(d, Load(d, db)) && Unheard(d, S.Take(d, db, tx, now), b)
    ensures Unheard(d, db, b)
            || ((tx.DoComplete? || tx.DoMarkLost?) && tx.attempt == b && S.Take(d, db, tx, now) != db)
  {
    hide S.Sound, Load, S.Take, Inv, Twin, Open, Apply;
    S.TakeSound(d, db, tx, now);
    S.SoundRows(d, db);
    var s, t := Load(d, db), Load(d, S.Take(d, db, tx, now));
    if t != s {
      var op := S.Meaning(db, tx, now).value;
      OpenTwin(Apply(d, s, op), t, b);
      if op.Record? {
        RecordOpens(d, s, op.attempt, op.result, b);
      } else {
        OpensNothing(d, s, op, b);
      }
    }
  }

  lemma RecordOpens(d: Doc, s: State, a: Id, r: AttemptResult, b: Id)
    requires Fits(d, s) && Open(Apply(d, s, Record(a, r)), b) && Apply(d, s, Record(a, r)).attempts[b].state.Terminal()
    ensures Open(s, b) && (b != a ==> s.attempts[b].state.Terminal())
  {
  }

  // ---------------------------------------------------------------- what an event settles

  lemma OverMeansAll(d: Doc, s: State, a: Id)
    requires Inv(d, s) && s.run.state.Terminal()
    ensures !Open(s, a)
  {
    hide ValidDoc, NodeOk, AttemptOk, EdgesProject, Placed, NodeFlow;
  }

  // A run that was just stopped waits only for attempts that are still out.
  lemma StoppedWaits(d: Doc, s: State, intent: Intent, a: Id)
    requires Inv(d, s) && Fits(d, s) && intent.cause.code != "" && s.run.termination.None? && !s.run.state.Terminal()
    ensures RequestStop(d, s, intent).Ok? ==> var t := RequestStop(d, s, intent).value.0; Open(t, a) ==> !t.attempts[a].state.Terminal()
  {
    hide Inv, Falling, Wind, RequestStop;
    if RequestStop(d, s, intent).Ok? {
      StopIsWinding(d, s, intent);
      var stopped := s.(run := s.run.RequestTermination(intent).value.0);
      RequestedIsFalling(d, s, intent);
      U.WindLeavesLive(d, stopped);
      LiveIsOut(Wind(d, stopped).value, a);
    }
  }

  lemma StopIsWinding(d: Doc, s: State, intent: Intent)
    requires Fits(d, s) && s.run.termination.None? && !s.run.state.Terminal() && RequestStop(d, s, intent).Ok?
    ensures s.run.RequestTermination(intent).Ok? && s.run.RequestTermination(intent).value.0.termination.Some?
    ensures var stopped := s.(run := s.run.RequestTermination(intent).value.0);
            Wind(d, stopped).Ok? && RequestStop(d, s, intent).value.0 == Wind(d, stopped).value
  {
    hide Wind, Pass;
  }

  lemma LiveIsOut(t: State, a: Id)
    requires forall n :: n in t.nodes ==> t.nodes[n].state.Terminal() || Outstanding(t, n)
    ensures Open(t, a) ==> !t.attempts[a].state.Terminal()
  {
    if Open(t, a) { assert t.nodes[t.attempts[a].node].state.Terminal() || Outstanding(t, t.attempts[a].node); }
  }

  // Stopping a run that has no intent gives it one.
  lemma StopGivesIntent(d: Doc, db: Db, content: Event, now: Time)
    requires S.Sound(d, db) && Fits(d, Load(d, db)) && !db.run.state.Terminal() && db.run.termination.None?
    requires var op := OpFor(db, content, now); op.Some? && (op.value.Cancel? || op.value.Deadline?) && !Fails(d, Load(d, db), op.value)
    requires OpFor(db, content, now).value.Deadline? ==> OpFor(db, content, now).value.at >= db.run.command.deadlineAt
    ensures Apply(d, Load(d, db), OpFor(db, content, now).value).run.termination.Some?
  {
    hide S.Sound, Load, Inv, RequestStop;
    S.SoundRows(d, db);
    S.LoadParts(d, db);
    var op := OpFor(db, content, now).value;
    var intent := if op.Cancel? then Intent(CanceledKind, op.at, Failure(RUN_CANCELED, "run_control", "", "", ""))
                  else Intent(TimedOutKind, op.at, Failure(RUN_TIMED_OUT, "run_deadline", "", "", ""));
    RequestStopKeeps(d, Load(d, db), intent);
  }

  // What consuming an event means for the engine.
  lemma Consumed(d: Doc, db: Db, content: Event, now: Time)
    requires S.Sound(d, db) && Fits(d, Load(d, db)) && Consume(d, db, content, now).Ok?
    ensures S.Sound(d, Consume(d, db, content, now).value)
    ensures var db2 := Consume(d, db, content, now).value;
            if db.run.state.Terminal() || OpFor(db, content, now).None? then db2 == db
            else !Fails(d, Load(d, db), OpFor(db, content, now).value) && Twin(Apply(d, Load(d, db), OpFor(db, content, now).value), Load(d, db2))
  {
    hide S.Sound, Load, Inv, Advance, Fails, Apply, Twin, S.Advanced;
    S.AdvanceIs(d, db, content, now);
    if !db.run.state.Terminal() && OpFor(db, content, now).Some? {
      S.AdvanceRefines(d, db, OpFor(db, content, now).value);
    }
  }

  // After the event that tells of it, no node waits for the attempt.
  lemma AttemptHeard(d: Doc, db: Db, content: Event, now: Time)
    requires S.Sound(d, db) && Fits(d, Load(d, db)) && content.AttemptOver? && Consume(d, db, content, now).Ok?
    ensures !Unheard(d, Consume(d, db, content, now).value, content.attempt)
  {
    hide S.Sound, Load, Inv, Fails, Apply, Twin, Consume, Open;
    var a, s := content.attempt, Load(d, db);
    Consumed(d, db, content, now);
    S.SoundRows(d, db);
    S.LoadParts(d, db);
    var db2 := Consume(d, db, content, now).value;
    if db.run.state.Terminal() {
      OverMeansAll(d, s, a);
    } else {
      var op := OpFor(db, content, now).value;
      OpenTwin(Apply(d, s, op), Load(d, db2), a);
      if op.Completed? {
        CompletedCloses(d, s, op.attempt, op.at);
      } else {
        OpStops(d, db, content, now, a);
      }
    }
  }

  lemma OpStops(d: Doc, db: Db, content: Event, now: Time, a: Id)
    requires S.Sound(d, db) && Fits(d, Load(d, db)) && !db.run.state.Terminal() && db.run.termination.None?
    requires var op := OpFor(db, content, now); op.Some? && (op.value.Cancel? || op.value.Deadline?) && !Fails(d, Load(d, db), op.value)
    requires OpFor(db, content, now).value.Deadline? ==> OpFor(db, content, now).value.at >= db.run.command.deadlineAt
    ensures var t := Apply(d, Load(d, db), OpFor(db, content, now).value); Open(t, a) ==> !t.attempts[a].state.Terminal()
  {
    hide S.Sound, Load, Inv, RequestStop, Open;
    S.SoundRows(d, db);
    S.LoadParts(d, db);
    var op := OpFor(db, content, now).value;
    var intent := if op.Cancel? then Intent(CanceledKind, op.at, Failure(RUN_CANCELED, "run_control", "", "", ""))
                  else Intent(TimedOutKind, op.at, Failure(RUN_TIMED_OUT, "run_deadline", "", "", ""));
    StoppedWaits(d, Load(d, db), intent, a);
  }

  lemma CompletedCloses(d: Doc, s: State, a: Id, at: Time)
    requires Inv(d, s) && Fits(d, s) && !Fails(d, s, Completed(a, at))
    ensures !Open(Apply(d, s, Completed(a, at)), a)
  {
    hide Inv, HandleCompleted, Open;
    HandleCloses(d, s, a, at);
  }

  // After the event that tells of it, a request to cancel has become an intent, or the run is over.
  lemma CancelAnswered(d: Doc, db: Db, content: Event, now: Time)
    requires S.Sound(d, db) && Fits(d, Load(d, db)) && content.CancelAsked? && Consume(d, db, content, now).Ok?
    ensures !Unanswered(Consume(d, db, content, now).value)
  {
    hide S.Sound, Load, Inv, Fails, Apply, Twin, Consume;
    Consumed(d, db, content, now);
    S.SoundRows(d, db);
    S.LoadParts(d, db);
    var db2 := Consume(d, db, content, now).value;
    S.LoadParts(d, db2);
    if !db.run.state.Terminal() {
      var op := OpFor(db, content, now).value;
      R.TwinRuns(Apply(d, Load(d, db), op), Load(d, db2));
      if db.run.termination.None? {
        StopGivesIntent(d, db, content, now);
      } else {
        ApplyKeeps(d, Load(d, db), op);
      }
    }
  }

  // ---------------------------------------------------------------- over histories

  lemma EmitsCovers(d: Doc, db: Db, tx: S.Tx, at: Time, now: Time)
    requires Fits(d, Load(d, db)) && !tx.DoAdvance? && S.Take(d, db, tx, now) != db
    ensures tx.DoComplete? || tx.DoMarkLost? ==> Emits(db, tx, at, now) == Some(AttemptOver(tx.attempt, at))
    ensures S.Take(d, db, tx, now).cancelRequestedAt != db.cancelRequestedAt ==>
              Emits(db, tx, at, now).Some? && Emits(db, tx, at, now).value.CancelAsked?
  {
    hide Load, Fits;
  }

  lemma WriteLosesNothing(d: Doc, w: World, step: Step, now: Time)
    requires Tidy(w) && S.Sound(d, w.db) && Fits(d, Load(d, w.db)) && NothingLost(d, w) && step.Write?
    ensures NothingLost(d, Take(d, w, step, now))
  {
    hide S.Sound, Load, M.Take, S.Take, Emits, Unheard, Tidy;
    var w2, tx := Take(d, w, step, now), step.tx;
    if RolledBack(w, tx, step.event, step.at, now) { return; }
    InboxInside(w);
    R.OtherTransactions(d, w.db, tx, now);
    if w2.db != w.db { EmitsCovers(d, w.db, tx, step.at, now); }
    forall a | Unheard(d, w2.db, a) ensures ToldOf(w2, a) {
      UnheardBefore(d, w.db, tx, now, a);
      if Unheard(d, w.db, a) {
        TellsStill(w, w2);
      } else {
        assert step.event in w2.events && w2.events[step.event] == AttemptOver(a, step.at);
      }
    }
    if Unanswered(w2.db) {
      if w2.db.cancelRequestedAt == w.db.cancelRequestedAt {
        TellsStill(w, w2);
      } else {
        assert step.event in w2.events && w2.events[step.event].CancelAsked?;
      }
    }
  }

  // Old events stay, and stay unheard.
  lemma TellsStill(w: World, w2: World)
    requires w.events.Keys <= w2.events.Keys && (forall e :: e in w.events ==> w2.events[e] == w.events[e]) && w2.inbox == w.inbox
    ensures forall a :: ToldOf(w, a) ==> ToldOf(w2, a)
    ensures ToldToCancel(w) ==> ToldToCancel(w2)
  {
  }

  lemma DeliverLosesNothing(d: Doc, w: World, e: Id, now: Time)
    requires S.Sound(d, w.db) && Fits(d, Load(d, w.db)) && NothingLost(d, w) && e in w.events && Consume(d, w.db, w.events[e], now).Ok?
    ensures NothingLost(d, w.(db := Consume(d, w.db, w.events[e], now).value, inbox := w.inbox + {e}))
  {
    hide S.Sound, Load, Unheard, S.Take, Advance, Fails, Unanswered;
    var content := w.events[e];
    var w2 := w.(db := Consume(d, w.db, content, now).value, inbox := w.inbox + {e});
    R.AdvanceTaken(d, w.db, content, now);
    forall a | Unheard(d, w2.db, a) ensures ToldOf(w2, a) {
      UnheardBefore(d, w.db, S.DoAdvance(content), now, a);
      var f :| f in w.events && f !in w.inbox && w.events[f].AttemptOver? && w.events[f].attempt == a;
      if f == e { AttemptHeard(d, w.db, content, now); }
    }
    if Unanswered(w2.db) {
      UnansweredBefore(d, w.db, content, now);
      var f :| f in w.events && f !in w.inbox && w.events[f].CancelAsked?;
      if f == e { CancelAnswered(d, w.db, content, now); }
    }
  }

  lemma UnansweredBefore(d: Doc, db: Db, content: Event, now: Time)
    requires S.Sound(d, db) && Fits(d, Load(d, db)) && Consume(d, db, content, now).Ok? && Unanswered(Consume(d, db, content, now).value)
    ensures Unanswered(db)
  {
    hide S.Sound, Load, Fails, Apply, Twin, Advance, S.Take;
    R.AdvanceTaken(d, db, content, now);
    R.OtherTransactions(d, db, S.DoAdvance(content), now);
    Consumed(d, db, content, now);
    if db.run.termination.Some? { R.IntentStays(d, db, S.DoAdvance(content), now); }
    RequestUntouched(d, db, content, now);
  }

  lemma RequestUntouched(d: Doc, db: Db, content: Event, now: Time)
    requires Fits(d, Load(d, db))
    ensures Advance(d, db, content, now).cancelRequestedAt == db.cancelRequestedAt
  {
    hide Load, Fits, Apply, WrittenNodes;
  }

  lemma TakeLosesNothing(d: Doc, w: World, step: Step, now: Time)
    requires Tidy(w) && S.Sound(d, w.db) && Fits(d, Load(d, w.db)) && NothingLost(d, w)
    ensures NothingLost(d, Take(d, w, step, now))
  {
    hide NothingLost, Load, S.Sound, Consume, Emits, Actionable, M.Take, S.Take, Tidy;
    if step.Write? {
      WriteLosesNothing(d, w, step, now);
    } else if step.Deliver? {
      if step.event in w.events && Consume(d, w.db, w.events[step.event], now).Ok? {
        DeliverLosesNothing(d, w, step.event, now);
      }
    } else {
      MailLosesNothing(d, w, Take(d, w, step, now));
    }
  }

  lemma MailLosesNothing(d: Doc, w: World, w2: World)
    requires NothingLost(d, w) && w2.db == w.db && w2.inbox == w.inbox
    requires w.events.Keys <= w2.events.Keys && (forall e :: e in w.events ==> w2.events[e] == w.events[e])
    ensures NothingLost(d, w2)
  {
    hide Unheard, Unanswered, ToldOf, ToldToCancel;
    TellsStill(w, w2);
  }

  // In every state of every history: while a node waits for an attempt whose result is there, or a request to
  // cancel has not become an intent, an event that tells of it is still to be handled.
  lemma {:induction false} NothingLostAlways(d: Doc, c: Command, steps: seq<(Step, Time)>, ws: seq<World>, i: nat)
    requires IsHistory(d, c, steps, ws) && i < |ws|
    ensures NothingLost(d, ws[i])
  {
    hide New, Load, Take, S.Sound, Committed, NothingLost, Tidy;
    if i == 0 {
      FirstLosesNothing(d, c);
    } else {
      NothingLostAlways(d, c, steps, ws, i - 1);
      RowsFit(d, c, steps, ws, i - 1);
      var dbs := RowsOfOnce(d, c, steps, ws, i - 1);
      assert Leads(d, ws[i - 1], steps[i - 1].0, steps[i - 1].1, ws[i]);
      TakeLosesNothing(d, ws[i - 1], steps[i - 1].0, steps[i - 1].1);
    }
  }

  lemma FirstLosesNothing(d: Doc, c: Command)
    requires New(d, c).Ok?
    ensures NothingLost(d, First(d, c))
  {
    hide New, LoadNodes, Rebuilt;
  }

  // So once every event was handled, no node waits for a finished attempt, and every request was answered.
  lemma AllHeard(d: Doc, c: Command, steps: seq<(Step, Time)>, ws: seq<World>, i: nat, a: Id)
    requires IsHistory(d, c, steps, ws) && i < |ws| && ws[i].inbox == ws[i].events.Keys
    ensures !Unheard(d, ws[i].db, a) && !Unanswered(ws[i].db)
  {
    hide IsHistory, Unheard, Unanswered;
    NothingLostAlways(d, c, steps, ws, i);
  }

  // ---------------------------------------------------------------- the relays

  // The outbox and the broker go through a history of module Relay, so its theorems hold here.
  lemma {:induction false} MailHistory(d: Doc, c: Command, steps: seq<(Step, Time)>, ws: seq<World>, i: nat)
    returns (posts: seq<(M.Step, Time)>, states: seq<M.System>)
    requires IsHistory(d, c, steps, ws) && i < |ws|
    ensures M.IsHistory(posts, states) && states[|states| - 1] == ws[i].mail
  {
    hide New, Load, Take, M.Take;
    if i == 0 {
      posts, states := [], [M.EMPTY];
    } else {
      posts, states := MailHistory(d, c, steps, ws, i - 1);
      assert Leads(d, ws[i - 1], steps[i - 1].0, steps[i - 1].1, ws[i]);
      var step, now := steps[i - 1].0, steps[i - 1].1;
      MailMoves(d, ws[i - 1], step, now);
      if ws[i].mail != ws[i - 1].mail {
        var post := if step.Post? then step.step else M.Insert(step.event, now);
        MailGrows(posts, states, post, now);
        posts, states := posts + [(post, now)], states + [ws[i].mail];
      }
    }
  }

  lemma MailMoves(d: Doc, w: World, step: Step, now: Time)
    requires Fits(d, Load(d, w.db))
    ensures var w2 := Take(d, w, step, now);
            w2.mail == w.mail || (!step.Deliver? && w2.mail == M.Take(w.mail, if step.Post? then step.step else M.Insert(step.event, now), now))
  {
    hide Load, Fits, M.Take, S.Take, Consume, Emits, Actionable;
  }

  lemma MailGrows(posts: seq<(M.Step, Time)>, states: seq<M.System>, post: M.Step, now: Time)
    requires M.IsHistory(posts, states)
    ensures M.IsHistory(posts + [(post, now)], states + [M.Take(states[|states| - 1], post, now)])
  {
    hide M.Take;
    var more, after := posts + [(post, now)], states + [M.Take(states[|states| - 1], post, now)];
    forall i | 0 <= i < |more| ensures M.Leads(after[i], more[i].0, more[i].1, after[i + 1]) {
      if i < |posts| { assert M.Leads(states[i], posts[i].0, posts[i].1, states[i + 1]); }
    }
  }
}
