/**
 Events on their way from the outbox to the broker: several relays claim, publish and mark them, and any
 of them may crash between two steps.
 */
module Relay {
  import opened Ids
  import opened Json

  type Time = nat

  // token is empty while nobody holds a claim.
  datatype Row = Row(availableAt: Time, token: Id, claimExpires: Time, published: bool)

  // A claimed event in the memory of a relay.
  datatype Hand = Hand(event: Id, token: Id, sent: bool)

  // log is what the broker holds; tokens are all that were ever issued.
  datatype System = System(rows: map<Id, Row>, log: seq<Id>, hands: map<Id, seq<Hand>>, tokens: set<Id>)

  const EMPTY := System(map[], [], map[], {})

  function HandsOf(s: System, relay: Id): seq<Hand> {
    if relay in s.hands then s.hands[relay] else []
  }

  // ---------------------------------------------------------------- the outbox

  predicate Claimable(row: Row, now: Time) {
    !row.published && row.availableAt <= now && (row.token == "" || row.claimExpires <= now)
  }

  // Claims one event under a fresh token.
  function ClaimOne(s: System, relay: Id, e: Id, token: Id, until: Time): System
    requires e in s.rows
  {
    s.(rows := s.rows[e := s.rows[e].(token := token, claimExpires := until)],
       hands := s.hands[relay := HandsOf(s, relay) + [Hand(e, token, false)]],
       tokens := s.tokens + {token})
  }

  // The rows after a mark; the flag says whether the claim still held.
  function MarkPublished(rows: map<Id, Row>, e: Id, token: Id): (map<Id, Row>, bool) {
    if e in rows && token != "" && rows[e].token == token && !rows[e].published
    then (rows[e := rows[e].(token := "", claimExpires := 0, published := true)], true)
    else (rows, false)
  }

  function ReleaseClaim(rows: map<Id, Row>, e: Id, token: Id, availableAt: Time): (map<Id, Row>, bool) {
    if e in rows && token != "" && rows[e].token == token && !rows[e].published
    then (rows[e := rows[e].(token := "", claimExpires := 0, availableAt := availableAt)], true)
    else (rows, false)
  }

  // ---------------------------------------------------------------- steps

  datatype Step =
    | Insert(event: Id, at: Time)
    | Claim(relay: Id, event: Id, token: Id, until: Time)
    | Publish(relay: Id, ok: bool, retryAt: Time)
    | Mark(relay: Id)
    | Crash(relay: Id)

  // A relay works through what it claimed in order: it publishes the first event, then marks it.  A failed
  // publication releases the claim and gives up the rest; so does a mark that finds its claim gone.
  function Take(s: System, step: Step, now: Time): System {
    match step
    case Insert(e, at) => if e in s.rows then s else s.(rows := s.rows[e := Row(at, "", 0, false)])
    case Claim(relay, e, token, until) =>
      if e !in s.rows || !Claimable(s.rows[e], now) || token == "" || token in s.tokens then s else ClaimOne(s, relay, e, token, until)
    case Publish(relay, ok, retryAt) =>
      var hands := HandsOf(s, relay);
      if hands == [] || hands[0].sent then s
      else if ok then s.(log := s.log + [hands[0].event], hands := s.hands[relay := [hands[0].(sent := true)] + hands[1..]])
      else s.(rows := ReleaseClaim(s.rows, hands[0].event, hands[0].token, retryAt).0, hands := s.hands[relay := []])
    case Mark(relay) =>
      var hands := HandsOf(s, relay);
      if hands == [] || !hands[0].sent then s
      else
        var (rows, held) := MarkPublished(s.rows, hands[0].event, hands[0].token);
        s.(rows := rows, hands := s.hands[relay := if held then hands[1..] else []])
    case Crash(relay) => s.(hands := s.hands[relay := []])
  }

  // ---------------------------------------------------------------- what holds

  ghost predicate RowOk(s: System, e: Id)
    requires e in s.rows
  {
    && (s.rows[e].published ==> e in s.log && s.rows[e].token == "")
    && (s.rows[e].token != "" ==> s.rows[e].token in s.tokens)
  }

  ghost predicate HandOk(s: System, h: Hand) {
    h.event in s.rows && h.token in s.tokens && h.token != "" && (h.sent ==> h.event in s.log)
  }

  ghost predicate Ok(s: System) {
    && (forall e :: e in s.rows ==> RowOk(s, e))
    && (forall relay, i :: relay in s.hands && 0 <= i < |s.hands[relay]| ==> HandOk(s, s.hands[relay][i]))
    && (forall i :: 0 <= i < |s.log| ==> s.log[i] in s.rows)
  }

  // What only ever grows.
  ghost predicate Grows(s: System, t: System) {
    && s.rows.Keys <= t.rows.Keys && s.tokens <= t.tokens && s.log <= t.log
    && (forall e :: e in s.rows && s.rows[e].published ==> t.rows[e].published)
  }

  lemma TakeGrows(s: System, step: Step, now: Time)
    ensures Grows(s, Take(s, step, now))
  {
  }

  lemma RowsStayOk(s: System, step: Step, now: Time, e: Id)
    requires Ok(s) && e in Take(s, step, now).rows
    ensures RowOk(Take(s, step, now), e)
  {
    TakeGrows(s, step, now);
    if e in s.rows { assert RowOk(s, e); }
    if step.Mark? {
      var hands := HandsOf(s, step.relay);
      if hands != [] { assert HandOk(s, hands[0]); }
    }
  }

  lemma HandsStayOk(s: System, step: Step, now: Time, relay: Id, i: nat)
    requires Ok(s) && relay in Take(s, step, now).hands && i < |Take(s, step, now).hands[relay]|
    ensures HandOk(Take(s, step, now), Take(s, step, now).hands[relay][i])
  {
  }

  // Every step keeps the protocol in order.
  lemma TakeOk(s: System, step: Step, now: Time)
    requires Ok(s)
    ensures Ok(Take(s, step, now))
  {
    var t := Take(s, step, now);
    forall e | e in t.rows ensures RowOk(t, e) {
      RowsStayOk(s, step, now, e);
    }
    forall relay, i | relay in t.hands && 0 <= i < |t.hands[relay]| ensures HandOk(t, t.hands[relay][i]) {
      HandsStayOk(s, step, now, relay, i);
    }
    TakeGrows(s, step, now);
    LogStays(s, step, now);
  }

  // What is published was claimed from a row.
  lemma LogStays(s: System, step: Step, now: Time)
    requires Ok(s)
    ensures var t := Take(s, step, now); forall i :: 0 <= i < |t.log| ==> t.log[i] in t.rows
  {
    hide MarkPublished, ReleaseClaim;
    TakeGrows(s, step, now);
    if step.Publish? && HandsOf(s, step.relay) != [] { assert HandOk(s, HandsOf(s, step.relay)[0]); }
  }

  // ---------------------------------------------------------------- histories

  ghost predicate IsHistory(steps: seq<(Step, Time)>, states: seq<System>) {
    && |states| == |steps| + 1 && states[0] == EMPTY
    && forall i :: 0 <= i < |steps| ==> Leads(states[i], steps[i].0, steps[i].1, states[i + 1])
  }

  ghost predicate Leads(s: System, step: Step, now: Time, t: System) {
    t == Take(s, step, now)
  }

  lemma {:induction false} OkAlways(steps: seq<(Step, Time)>, states: seq<System>, i: nat)
    requires IsHistory(steps, states) && i < |states|
    ensures Ok(states[i])
  {
    hide Take;
    if i > 0 {
      OkAlways(steps, states, i - 1);
      assert Leads(states[i - 1], steps[i - 1].0, steps[i - 1].1, states[i]);
      TakeOk(states[i - 1], steps[i - 1].0, steps[i - 1].1);
    }
  }

  // However relays crash: an event marked published is in the broker's log, and what is in the log is from
  // the outbox.
  lemma PublishedIsLogged(steps: seq<(Step, Time)>, states: seq<System>, i: nat, e: Id)
    requires IsHistory(steps, states) && i < |states|
    ensures e in states[i].rows && states[i].rows[e].published ==> e in states[i].log
    ensures e in states[i].log ==> e in states[i].rows
  {
    OkAlways(steps, states, i);
    if e in states[i].rows { assert RowOk(states[i], e); }
  }

  // ---------------------------------------------------------------- claims that were retaken

  // The token was issued, and it does not hold the claim on e.
  ghost predicate Stale(s: System, e: Id, token: Id) {
    token in s.tokens && (e in s.rows ==> s.rows[e].token != token)
  }

  // A claim once lost is lost for good.
  lemma StaleStays(s: System, step: Step, now: Time, e: Id, token: Id)
    requires Stale(s, e, token) && token != ""
    ensures Stale(Take(s, step, now), e, token)
  {
  }

  lemma {:induction false} StaleForever(steps: seq<(Step, Time)>, states: seq<System>, i: nat, j: nat, e: Id, token: Id)
    requires IsHistory(steps, states) && i <= j < |states| && Stale(states[i], e, token) && token != ""
    ensures Stale(states[j], e, token)
    decreases j
  {
    hide Take;
    if i < j {
      StaleForever(steps, states, i, j - 1, e, token);
      assert Leads(states[j - 1], steps[j - 1].0, steps[j - 1].1, states[j]);
      StaleStays(states[j - 1], steps[j - 1].0, steps[j - 1].1, e, token);
    }
  }

  // A relay whose claim was retaken, or which marked it already, can neither mark nor release the event, at
  // any later time.
  lemma StaleClaimIsPowerless(steps: seq<(Step, Time)>, states: seq<System>, i: nat, j: nat, e: Id, token: Id, at: Time)
    requires IsHistory(steps, states) && i <= j < |states| && Stale(states[i], e, token) && token != ""
    ensures MarkPublished(states[j].rows, e, token) == (states[j].rows, false)
    ensures ReleaseClaim(states[j].rows, e, token, at) == (states[j].rows, false)
  {
    StaleForever(steps, states, i, j, e, token);
  }

  // Retaking a claim makes the token it was held under stale.
  lemma RetakenIsStale(s: System, relay: Id, e: Id, token: Id, until: Time, now: Time)
    requires Ok(s) && e in s.rows && s.rows[e].token != ""
    ensures var t := Take(s, Claim(relay, e, token, until), now); t != s ==> Stale(t, e, s.rows[e].token) && !Stale(t, e, token)
  {
    assert RowOk(s, e);
  }

  // ---------------------------------------------------------------- the relay's loop

  // Publishes and marks the first event in hand; done says whether both steps went through.
  method SendOne(s: System, relay: Id, ok: bool, retryAt: Time, now: Time) returns (t: System, done: bool)
    requires HandsOf(s, relay) != [] && !HandsOf(s, relay)[0].sent
    ensures t.log == if ok then s.log + [HandsOf(s, relay)[0].event] else s.log
    ensures HandsOf(t, relay) == if done then HandsOf(s, relay)[1..] else []
    ensures done ==> ok && Delivered(t, HandsOf(s, relay)[0].event)
    ensures forall e :: Delivered(s, e) ==> Delivered(t, e)
  {
    hide Take, MarkPublished, HandsOf, Delivered;
    PublishStep(s, relay, ok, retryAt, now);
    DeliveredStays(s, Publish(relay, ok, retryAt), now);
    t := Take(s, Publish(relay, ok, retryAt), now);
    if !ok { return t, false; }
    var h := HandsOf(s, relay)[0];
    done := MarkPublished(t.rows, h.event, h.token).1;
    MarkStep(t, relay, now);
    DeliveredStays(t, Mark(relay), now);
    t := Take(t, Mark(relay), now);
  }

  // One round of a relay without a crash: it publishes and marks what it claimed, in order, and stops at the
  // first publication that fails or mark that finds its claim gone; in the latter case one more event went out
  // than it counts.
  method RelayOnce(s: System, relay: Id, outcomes: seq<bool>, retryAt: Time, now: Time) returns (t: System, published: nat)
    requires |outcomes| == |HandsOf(s, relay)| && forall i :: 0 <= i < |HandsOf(s, relay)| ==> !HandsOf(s, relay)[i].sent
    ensures published <= |HandsOf(s, relay)| && HandsOf(t, relay) == []
    ensures forall i :: 0 <= i < published ==> outcomes[i] && Delivered(t, HandsOf(s, relay)[i].event)
    ensures var tried := published < |HandsOf(s, relay)| && outcomes[published];
            Sent(s.log, HandsOf(s, relay), if tried then published + 1 else published, t.log)
  {
    hide Sent, HandsOf, Delivered;
    var claimed := HandsOf(s, relay);
    NothingSent(s.log, claimed);
    t, published := s, 0;
    while published < |claimed|
      invariant 0 <= published <= |claimed| && HandsOf(t, relay) == claimed[published..]
      invariant Sent(s.log, claimed, published, t.log)
      invariant forall i :: 0 <= i < published ==> outcomes[i] && Delivered(t, claimed[i].event)
    {
      SentGrows(s.log, claimed, published, t.log);
      var done: bool;
      t, done := SendOne(t, relay, outcomes[published], retryAt, now);
      if !done { return; }
      published := published + 1;
    }
  }

  lemma PublishStep(s: System, relay: Id, ok: bool, retryAt: Time, now: Time)
    requires HandsOf(s, relay) != [] && !HandsOf(s, relay)[0].sent
    ensures var h, t := HandsOf(s, relay)[0], Take(s, Publish(relay, ok, retryAt), now);
            && HandsOf(t, relay) == (if ok then [h.(sent := true)] + HandsOf(s, relay)[1..] else [])
            && t.log == (if ok then s.log + [h.event] else s.log) && (ok ==> h.event in t.log)
  {
    var h, t := HandsOf(s, relay)[0], Take(s, Publish(relay, ok, retryAt), now);
    if ok { assert t.log[|s.log|] == h.event; }
  }

  lemma MarkStep(s: System, relay: Id, now: Time)
    requires HandsOf(s, relay) != [] && HandsOf(s, relay)[0].sent
    ensures var h, t := HandsOf(s, relay)[0], Take(s, Mark(relay), now);
            && t.log == s.log
            && (if MarkPublished(s.rows, h.event, h.token).1
                then HandsOf(t, relay) == HandsOf(s, relay)[1..] && (h.event in s.log ==> Delivered(t, h.event))
                else HandsOf(t, relay) == [])
  {
  }

  function EventsOf(hands: seq<Hand>): seq<Id> {
    if hands == [] then [] else EventsOf(hands[..|hands| - 1]) + [hands[|hands| - 1].event]
  }

  // The log grew by the events of the first k hands, in order.
  ghost predicate Sent(before: seq<Id>, hands: seq<Hand>, k: nat, log: seq<Id>)
    requires k <= |hands|
  {
    log == before + EventsOf(hands[..k])
  }

  lemma NothingSent(log: seq<Id>, hands: seq<Hand>)
    ensures Sent(log, hands, 0, log)
  {
    assert hands[..0] == [];
  }

  lemma SentGrows(before: seq<Id>, hands: seq<Hand>, k: nat, log: seq<Id>)
    requires k < |hands| && Sent(before, hands, k, log)
    ensures Sent(before, hands, k + 1, log + [hands[k].event])
  {
    assert hands[..k + 1][..k] == hands[..k];
  }

  // The event was sent and its row says so.
  ghost predicate Delivered(s: System, e: Id) {
    e in s.log && e in s.rows && s.rows[e].published
  }

  lemma DeliveredStays(s: System, step: Step, now: Time)
    ensures forall e :: Delivered(s, e) ==> Delivered(Take(s, step, now), e)
  {
    hide Take;
    TakeGrows(s, step, now);
  }
}
