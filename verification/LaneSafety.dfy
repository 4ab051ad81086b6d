/**
 What every step on a lane keeps, whoever takes it and in whatever order; and what one epoch of a
 lane can spend.
 */
module LaneSafety {
  import opened Ids
  import opened Json
  import opened Planner
  import opened Reservations
  import opened Lanes

  // ---------------------------------------------------------------- counting

  ghost function Total(m: map<Id, nat>): nat
    decreases |m|
  {
    if m == map[] then 0
    else
      var k :| k in m;
      m[k] + Total(m - {k})
  }

  // The total does not depend on the order in which it is added up.
  lemma {:induction false} TotalSplit(m: map<Id, nat>, k: Id)
    requires k in m
    ensures Total(m) == m[k] + Total(m - {k})
    decreases |m|
  {
    var c :| c in m && Total(m) == m[c] + Total(m - {c});
    if c != k {
      TotalSplit(m - {c}, k);
      TotalSplit(m - {k}, c);
      assert (m - {c}) - {k} == (m - {k}) - {c};
    }
  }

  lemma TotalUpdate(m: map<Id, nat>, k: Id, v: nat)
    ensures Total(m[k := v]) == Total(m) - Get(m, k) + v
  {
    var n := m[k := v];
    TotalSplit(n, k);
    if k in m {
      TotalSplit(m, k);
      assert n - {k} == m - {k};
    } else {
      assert n - {k} == m;
    }
  }

  function Occurrences(s: seq<Id>, p: Id): nat {
    if s == [] then 0 else Occurrences(s[..|s| - 1], p) + if s[|s| - 1] == p then 1 else 0
  }

  lemma {:induction false} OccurrencesSplit(s: seq<Id>, t: seq<Id>, p: Id)
    ensures Occurrences(s + t, p) == Occurrences(s, p) + Occurrences(t, p)
  {
    if t == [] {
      assert s + t == s;
    } else {
      var rest := t[..|t| - 1];
      OccurrencesSplit(s, rest, p);
      assert (s + t)[..|s + t| - 1] == s + rest;
    }
  }

  lemma {:induction false} CreditedIs(credits: map<Id, nat>, projects: seq<Id>, p: Id)
    ensures Get(Credited(credits, projects), p) == Get(credits, p) + Occurrences(projects, p)
    ensures Total(Credited(credits, projects)) == Total(credits) + |projects|
  {
    if projects != [] {
      var last, rest := projects[|projects| - 1], projects[..|projects| - 1];
      CreditedIs(credits, rest, p);
      TotalUpdate(Credited(credits, rest), last, Get(Credited(credits, rest), last) + 1);
    }
  }

  // The reservations made in an epoch.
  ghost function MadeIn(rs: map<Id, Reservation>, epoch: nat): set<Id> {
    set a | a in rs && rs[a].epoch == epoch
  }

  // ---------------------------------------------------------------- the invariant

  // A lane together with its number, the credit granted under its current fence, and the reservations handed
  // out under it minus those given back.
  datatype Tracked = Tracked(lane: Lane, index: nat, granted: nat, spent: int)

  ghost predicate QueuesOk(ready: map<Id, seq<Candidate>>) {
    forall p :: p in ready ==> ready[p] != [] && forall i :: 0 <= i < |ready[p]| ==> ready[p][i].project == p
  }

  ghost predicate ReservationsOk(s: Lane, index: nat) {
    && s.expiry.Keys == s.reservations.Keys
    && forall a :: a in s.reservations ==>
         && s.reservations[a].attempt == a && s.reservations[a].lane == index && s.reservations[a].epoch <= s.meta.fence
         && s.reservations[a].project == s.reservations[a].candidate.project
         && s.reservations[a].pool == s.reservations[a].candidate.pool
  }

  // The grants never promise more than the credits.
  ghost predicate Covered(grants: seq<Id>, credits: map<Id, nat>) {
    forall p :: Occurrences(grants, p) <= Get(credits, p)
  }

  ghost predicate Safe(t: Tracked) {
    && QueuesOk(t.lane.ready) && ReservationsOk(t.lane, t.index) && Covered(t.lane.grants, t.lane.credits)
    && (t.lane.meta.paused == Some(false) ==> t.lane.meta.epoch == t.lane.meta.fence)
    && |MadeIn(t.lane.reservations, t.lane.meta.fence)| <= t.spent && Total(t.lane.credits) + t.spent <= t.granted
  }

  // ---------------------------------------------------------------- steps

  datatype Step =
    | DoPause(lease: Lease)
    | DoRebuild(lease: Lease, candidates: seq<Candidate>, keep: set<Id>, renew: set<Id>, activeTTL: nat, ttl: nat)
    | DoGrant(lease: Lease, projects: seq<Id>)
    | DoActivate(lease: Lease)
    | DoReserve(attempt: Id, ttl: nat)
    | DoAbort(attempt: Id, restore: bool)
    | DoConfirm(attempt: Id, ttl: nat)
    | DoExpire

  // One step at a time now.  The balancer activates a lane with its own fencing token as the epoch.
  ghost function Take(t: Tracked, step: Step, now: nat): Tracked
    requires Safe(t)
  {
    var s := t.lane;
    match step
    case DoPause(lease) =>
      var (u, ok) := Pause(s, lease, now);
      if ok && lease.fence > s.meta.fence then Tracked(u, t.index, 0, 0) else t.(lane := u)
    case DoRebuild(lease, cs, keep, renew, activeTTL, ttl) => t.(lane := Rebuild(s, lease, cs, keep, renew, activeTTL, ttl, now).0)
    case DoGrant(lease, ps) =>
      var (u, ok) := GrantCredit(s, lease, ps, now);
      t.(lane := u, granted := if ok then t.granted + |ps| else t.granted)
    case DoActivate(lease) => t.(lane := Activate(s, lease, lease.fence, now).0)
    case DoReserve(a, ttl) =>
      var (u, r) := Reserve(s, a, t.index, ttl, now);
      t.(lane := u, spent := t.spent + if r.Got? && a !in s.reservations then 1 else 0)
    case DoAbort(a, restore) => t.(lane := Abort(s, a, restore), spent := t.spent - if GivesBack(s, a, restore) then 1 else 0)
    case DoConfirm(a, ttl) => t.(lane := Confirm(s, a, ttl, now))
    case DoExpire => t.(lane := Expire(s, now))
  }

  // Aborting gives the candidate and the credit of the reservation back.
  predicate GivesBack(s: Lane, a: Id, restore: bool) {
    a in s.reservations && restore && s.meta.paused == Some(false) && s.meta.epoch == s.reservations[a].epoch
  }

  lemma SmallerReservations(rs: map<Id, Reservation>, us: map<Id, Reservation>, epoch: nat)
    requires us.Keys <= rs.Keys && forall a :: a in us ==> us[a].epoch == rs[a].epoch
    ensures |MadeIn(us, epoch)| <= |MadeIn(rs, epoch)|
  {
    assert MadeIn(us, epoch) <= MadeIn(rs, epoch);
    SubsetIsSmaller(MadeIn(us, epoch), MadeIn(rs, epoch));
  }

  lemma PauseSafe(t: Tracked, lease: Lease, now: nat)
    requires Safe(t)
    ensures Safe(Take(t, DoPause(lease), now))
  {
    var u := Take(t, DoPause(lease), now);
    if u.lane.meta.fence > t.lane.meta.fence {
      assert MadeIn(u.lane.reservations, u.lane.meta.fence) == {};
    }
  }

  lemma RebuildSafe(t: Tracked, step: Step, now: nat)
    requires Safe(t) && step.DoRebuild?
    ensures Safe(Take(t, step, now))
  {
    hide QueuesOf;
    var u := Take(t, step, now);
    if u != t {
      GroupsOk(step.candidates);
      SmallerReservations(t.lane.reservations, u.lane.reservations, t.lane.meta.fence);
    }
  }

  lemma {:induction false} QueueOfProject(s: seq<Candidate>, p: Id)
    ensures forall i :: 0 <= i < |QueueOf(s, p)| ==> QueueOf(s, p)[i].project == p && QueueOf(s, p)[i] in s
    ensures p in ProjectsOf(s) ==> QueueOf(s, p) != []
  {
    if s != [] {
      QueueOfProject(s[..|s| - 1], p);
      assert s == s[..|s| - 1] + [s[|s| - 1]];
      assert ProjectsOf(s) == ProjectsOf(s[..|s| - 1]) + {s[|s| - 1].project};
    }
  }

  // Grouping makes no empty queue and mixes no projects.
  lemma GroupsOk(s: seq<Candidate>)
    ensures QueuesOk(QueuesOf(s))
  {
    forall p | p in QueuesOf(s) ensures QueuesOf(s)[p] != [] && forall i :: 0 <= i < |QueuesOf(s)[p]| ==> QueuesOf(s)[p][i].project == p {
      QueueOfProject(s, p);
    }
  }

  lemma GrantSafe(t: Tracked, lease: Lease, projects: seq<Id>, now: nat)
    requires Safe(t)
    ensures Safe(Take(t, DoGrant(lease, projects), now))
  {
    hide Credited, Occurrences;
    forall p ensures Occurrences(t.lane.grants + projects, p) <= Get(Credited(t.lane.credits, projects), p) {
      OccurrencesSplit(t.lane.grants, projects, p);
      CreditedIs(t.lane.credits, projects, p);
    }
    CreditedIs(t.lane.credits, projects, "");
  }

  lemma ExpireSafe(t: Tracked, now: nat)
    requires Safe(t)
    ensures Safe(Take(t, DoExpire, now))
  {
    SmallerReservations(t.lane.reservations, Expire(t.lane, now).reservations, t.lane.meta.fence);
  }

  lemma ConfirmSafe(t: Tracked, a: Id, ttl: nat, now: nat)
    requires Safe(t)
    ensures Safe(Take(t, DoConfirm(a, ttl), now))
  {
    SmallerReservations(t.lane.reservations, Confirm(t.lane, a, ttl, now).reservations, t.lane.meta.fence);
  }

  // Dropping grants, one of them of project p, leaves at most as many of every project, and fewer of p.
  lemma FewerOccurrences(grants: seq<Id>, k: nat, q: Id)
    requires k < |grants|
    ensures Occurrences(grants[k + 1..], q) + (if grants[k] == q then 1 else 0) <= Occurrences(grants, q)
  {
    assert grants == grants[..k] + ([grants[k]] + grants[k + 1..]);
    OccurrencesSplit(grants[..k], [grants[k]] + grants[k + 1..], q);
    OccurrencesSplit([grants[k]], grants[k + 1..], q);
    assert Occurrences([grants[k]], q) == if grants[k] == q then 1 else 0;
  }

  lemma PopKeepsQueues(ready: map<Id, seq<Candidate>>, p: Id)
    requires QueuesOk(ready) && p in ready
    ensures var rest := ready[p][1..]; QueuesOk(if rest == [] then ready - {p} else ready[p := rest])
    ensures ready[p] != [] && ready[p][0].project == p
  {
  }

  lemma PushKeepsQueues(ready: map<Id, seq<Candidate>>, c: Candidate)
    requires QueuesOk(ready)
    ensures QueuesOk(ready[c.project := [c] + (if c.project in ready then ready[c.project] else [])])
  {
  }

  lemma PopKeepsGrants(grants: seq<Id>, credits: map<Id, nat>, k: nat)
    requires Covered(grants, credits) && k < |grants| && Get(credits, grants[k]) > 0
    ensures Covered(grants[k + 1..], credits[grants[k] := Get(credits, grants[k]) - 1])
  {
    hide Occurrences;
    var left, paid := grants[k + 1..], credits[grants[k] := Get(credits, grants[k]) - 1];
    forall q ensures Occurrences(left, q) <= Get(paid, q) {
      FewerOccurrences(grants, k, q);
    }
  }

  lemma PushKeepsGrants(grants: seq<Id>, credits: map<Id, nat>, p: Id)
    requires Covered(grants, credits)
    ensures Covered([p] + grants, credits[p := Get(credits, p) + 1])
  {
    hide Occurrences;
    var more, paid := [p] + grants, credits[p := Get(credits, p) + 1];
    forall q ensures Occurrences(more, q) <= Get(paid, q) {
      OccurrencesSplit([p], grants, q);
      OneOccurrence(p, q);
    }
  }

  lemma MadeInAdd(rs: map<Id, Reservation>, a: Id, r: Reservation)
    requires a !in rs
    ensures |MadeIn(rs[a := r], r.epoch)| == |MadeIn(rs, r.epoch)| + 1
  {
    assert MadeIn(rs[a := r], r.epoch) == MadeIn(rs, r.epoch) + {a};
  }

  lemma MadeInRemove(rs: map<Id, Reservation>, a: Id)
    requires a in rs
    ensures |MadeIn(rs, rs[a].epoch)| == |MadeIn(rs - {a}, rs[a].epoch)| + 1
  {
    assert MadeIn(rs, rs[a].epoch) == MadeIn(rs - {a}, rs[a].epoch) + {a};
  }

  // What reserving for attempt a from grant k does.
  lemma ReserveForSafe(t: Tracked, k: nat, a: Id, until: nat)
    requires Safe(t) && t.lane.meta.paused == Some(false) && a !in t.lane.reservations && k < |t.lane.grants|
    requires t.lane.grants[k] in t.lane.ready && Get(t.lane.credits, t.lane.grants[k]) > 0
    ensures t.lane.ready[t.lane.grants[k]] != []
    ensures var s := t.lane.(grants := t.lane.grants[k + 1..]);
            Safe(t.(lane := ReserveFor(s, t.lane.grants[k], a, t.index, until).0, spent := t.spent + 1))
  {
    hide Covered, QueuesOk, MadeIn, Total;
    var s, p := t.lane, t.lane.grants[k];
    PopKeepsQueues(s.ready, p);
    PopKeepsGrants(s.grants, s.credits, k);
    TotalUpdate(s.credits, p, Get(s.credits, p) - 1);
    var (u, r) := ReserveFor(s.(grants := s.grants[k + 1..]), p, a, t.index, until);
    MadeInAdd(s.reservations, a, r);
  }

  lemma {:induction false} NoOccurrences(p: Id)
    ensures Occurrences([], p) == 0
  {
  }

  lemma ReserveSafe(t: Tracked, a: Id, ttl: nat, now: nat)
    requires Safe(t)
    ensures Safe(Take(t, DoReserve(a, ttl), now))
  {
    hide Occurrences, ReserveFor, Total;
    var s := t.lane;
    if s.meta.paused == Some(false) && s.meta.expiresAt > now && a !in s.reservations {
      var k := FirstServable(s, now);
      if k < |s.grants| {
        ReserveForSafe(t, k, a, now + ttl);
      } else {
        forall q ensures Occurrences([], q) == 0 { NoOccurrences(q); }
      }
    }
  }

  lemma AbortSafe(t: Tracked, a: Id, restore: bool)
    requires Safe(t)
    ensures Safe(Take(t, DoAbort(a, restore), 0))
  {
    hide Covered, QueuesOk, MadeIn, Total;
    var s := t.lane;
    if a in s.reservations {
      var r := s.reservations[a];
      if GivesBack(s, a, restore) {
        TotalUpdate(s.credits, r.project, Get(s.credits, r.project) + 1);
        MadeInRemove(s.reservations, a);
        PushKeepsGrants(s.grants, s.credits, r.project);
        PushKeepsQueues(s.ready, r.candidate);
      } else {
        SmallerReservations(s.reservations, Abort(s, a, restore).reservations, s.meta.fence);
      }
    } else {
      assert Abort(s, a, restore).expiry == s.expiry;
    }
  }

  lemma OneOccurrence(p: Id, q: Id)
    ensures Occurrences([p], q) == if p == q then 1 else 0
  {
    assert [p][..0] == [];
  }

  // Every step on a lane keeps it safe, and never lowers its fence.
  lemma TakeSafe(t: Tracked, step: Step, now: nat)
    requires Safe(t)
    ensures Safe(Take(t, step, now)) && Take(t, step, now).lane.meta.fence >= t.lane.meta.fence
  {
    hide Safe;
    match step
    case DoPause(lease) => PauseSafe(t, lease, now);
    case DoRebuild(_, _, _, _, _, _) => RebuildSafe(t, step, now);
    case DoGrant(lease, ps) => GrantSafe(t, lease, ps, now);
    case DoActivate(lease) => ActivateSafe(t, lease, now);
    case DoReserve(a, ttl) => ReserveSafe(t, a, ttl, now);
    case DoAbort(a, restore) => AbortSafe(t, a, restore);
    case DoConfirm(a, ttl) => ConfirmSafe(t, a, ttl, now);
    case DoExpire => ExpireSafe(t, now);
  }

  lemma ActivateSafe(t: Tracked, lease: Lease, now: nat)
    requires Safe(t)
    ensures Safe(Take(t, DoActivate(lease), now))
  {
    hide Occurrences, Total;
  }

  // A history of a lane: any steps at any times, from the empty lane.
  ghost predicate IsHistory(steps: seq<(Step, nat)>, states: seq<Tracked>) {
    && |states| == |steps| + 1 && states[0] == Tracked(EMPTY, states[0].index, 0, 0)
    && forall i :: 0 <= i < |steps| ==> TakesTo(states[i], steps[i].0, steps[i].1, states[i + 1])
  }

  ghost predicate TakesTo(t: Tracked, step: Step, now: nat, u: Tracked) {
    Safe(t) ==> u == Take(t, step, now)
  }

  lemma EmptySafe(index: nat)
    ensures Safe(Tracked(EMPTY, index, 0, 0))
  {
    assert MadeIn(EMPTY.reservations, 0) == {};
  }

  lemma {:induction false} SafeAlways(steps: seq<(Step, nat)>, states: seq<Tracked>, i: nat)
    requires IsHistory(steps, states) && i < |states|
    ensures Safe(states[i])
  {
    hide Safe, Take;
    if i == 0 {
      EmptySafe(states[0].index);
    } else {
      SafeAlways(steps, states, i - 1);
      assert TakesTo(states[i - 1], steps[i - 1].0, steps[i - 1].1, states[i]);
      TakeSafe(states[i - 1], steps[i - 1].0, steps[i - 1].1);
    }
  }

  // Over any history, the fence of a lane never falls.
  lemma {:induction false} FenceNeverFalls(steps: seq<(Step, nat)>, states: seq<Tracked>, i: nat, j: nat)
    requires IsHistory(steps, states) && i <= j < |states|
    ensures states[i].lane.meta.fence <= states[j].lane.meta.fence
    decreases j
  {
    hide Safe, Take;
    if i < j {
      FenceNeverFalls(steps, states, i, j - 1);
      SafeAlways(steps, states, j - 1);
      assert TakesTo(states[j - 1], steps[j - 1].0, steps[j - 1].1, states[j]);
      TakeSafe(states[j - 1], steps[j - 1].0, steps[j - 1].1);
    }
  }

  // ---------------------------------------------------------------- undoing a reservation

  // Reserving and aborting at once gives back the queues, credits and reservations as they were, and the
  // grants without those that could not be served any more.  The set of active projects loses the project if
  // its queue was used up, and then what was given back cannot be served.
  lemma AbortUndoesReserve(t: Tracked, a: Id, lane: nat, ttl: nat, now: nat)
    requires Safe(t) && a !in t.lane.reservations && Reserve(t.lane, a, lane, ttl, now).1.Got?
    ensures var s := t.lane;
            var u := Abort(Reserve(s, a, lane, ttl, now).0, a, true);
            && u.ready == s.ready && u.reservations == s.reservations && u.expiry == s.expiry && u.meta == s.meta
            && (forall p :: Get(u.credits, p) == Get(s.credits, p))
            && FirstServable(s, now) < |s.grants| && u.grants == s.grants[FirstServable(s, now)..]
            && (u.grants == s.grants <==> FirstServable(s, now) == 0)
            && var p := s.grants[FirstServable(s, now)];
               && p in s.ready && u.active == (if |s.ready[p]| == 1 then s.active - {p} else s.active)
               && (now > 0 ==> (Servable(u, p, now) <==> |s.ready[p]| > 1))
  {
    hide Covered, Total, MadeIn, FirstServable, ReserveFor, Abort;
    var s := t.lane;
    var k := FirstServable(s, now);
    var p := s.grants[k];
    PopKeepsQueues(s.ready, p);
    AbortAfterServe(s.(grants := s.grants[k + 1..]), p, a, lane, now + ttl);
    assert [p] + s.grants[k + 1..] == s.grants[k..];
  }

  // Taking one candidate for a grant and giving it back.
  lemma AbortAfterServe(s: Lane, p: Id, a: Id, lane: nat, until: nat)
    requires p in s.ready && s.ready[p] != [] && s.ready[p][0].project == p && Get(s.credits, p) > 0
    requires a !in s.reservations && a !in s.expiry && s.meta.paused == Some(false)
    ensures var u := Abort(ReserveFor(s, p, a, lane, until).0, a, true);
            && u.ready == s.ready && u.reservations == s.reservations && u.expiry == s.expiry && u.meta == s.meta
            && (forall q :: Get(u.credits, q) == Get(s.credits, q)) && u.grants == [p] + s.grants
            && u.active == if |s.ready[p]| == 1 then s.active - {p} else s.active
  {
    PushUndoesPop(s.ready, p);
    var mid := ReserveFor(s, p, a, lane, until).0;
    assert mid.reservations - {a} == s.reservations && mid.expiry - {a} == s.expiry;
  }

  // A lane open for one project with a single candidate, which is taken and given back: the candidate, the
  // credit and the grant are there again, and nothing can be reserved.
  lemma AbortStrands(c: Candidate, a: Id, lane: nat, ttl: nat)
    ensures var s := OneCandidate(c);
            var u := Abort(Reserve(s, a, lane, ttl, 5).0, a, true);
            && Safe(Tracked(s, lane, 1, 0)) && Reserve(s, a, lane, ttl, 5).1.Got?
            && u.ready == s.ready && u.credits == s.credits && u.grants == s.grants && u.active == map[]
            && Reserve(u, a, lane, ttl, 5).1 == Nothing
  {
    var s := OneCandidate(c);
    OneCandidateSafe(c, lane);
    var t := Tracked(s, lane, 1, 0);
    hide Safe;
    assert Servable(s, c.project, 5) && FirstServable(s, 5) == 0;
    AbortUndoesReserve(t, a, lane, ttl, 5);
    var u := Abort(Reserve(s, a, lane, ttl, 5).0, a, true);
    assert u.active == map[];
    assert !Servable(u, c.project, 5) && u.grants[1..] == [];
    assert FirstServable(u, 5) == 1;
  }

  function OneCandidate(c: Candidate): Lane {
    Lane(Meta("", "", 1, 9, 1, Some(false)), map[c.project := [c]], map[c.project := 9], map[c.project := 1], [c.project], map[], map[])
  }

  lemma OneCandidateSafe(c: Candidate, lane: nat)
    ensures Safe(Tracked(OneCandidate(c), lane, 1, 0))
  {
    var s := OneCandidate(c);
    forall p ensures Occurrences(s.grants, p) <= Get(s.credits, p) { OneOccurrence(c.project, p); }
    TotalSplit(s.credits, c.project);
    assert s.credits - {c.project} == map[];
    assert MadeIn(s.reservations, 1) == {};
  }

  lemma PushUndoesPop(ready: map<Id, seq<Candidate>>, p: Id)
    requires p in ready && ready[p] != []
    ensures var c, rest := ready[p][0], ready[p][1..];
            var popped := if rest == [] then ready - {p} else ready[p := rest];
            popped[p := [c] + (if p in popped then popped[p] else [])] == ready
  {
    var c, rest := ready[p][0], ready[p][1..];
    assert ready[p] == [c] + rest;
    assert (ready - {p})[p := [c] + []] == ready[p := [c] + []];
    assert ready[p := rest][p := [c] + rest] == ready[p := [c] + rest];
  }
}
