/**
 One epoch from end to end: what the plan allots to a lane, the lane is granted; and whatever is
 reserved, aborted, confirmed and forgotten while the lane is open, the reservations of the epoch
 never exceed the global window or a pool window.
 */
module LaneEpochs {
  import opened Ids
  import opened Json
  import opened Planner
  import opened Reservations
  import opened Lanes
  import opened LaneSafety

  // ---------------------------------------------------------------- counting by pool

  predicate Matches(pool: Resource, which: Option<Resource>) {
    which.None? || pool == which.value
  }

  function Count(pools: seq<Resource>, which: Option<Resource>): nat {
    if pools == [] then 0 else Count(pools[..|pools| - 1], which) + if Matches(pools[|pools| - 1], which) then 1 else 0
  }

  lemma {:induction false} CountSplit(s: seq<Resource>, t: seq<Resource>, which: Option<Resource>)
    ensures Count(s + t, which) == Count(s, which) + Count(t, which)
  {
    if t == [] {
      assert s + t == s;
    } else {
      CountSplit(s, t[..|t| - 1], which);
      assert (s + t)[..|s + t| - 1] == s + t[..|t| - 1];
    }
  }

  // The reservations of project p made in an epoch, from one pool or any.
  ghost function MadeFor(rs: map<Id, Reservation>, epoch: nat, p: Id, which: Option<Resource>): set<Id> {
    set a | a in rs && rs[a].epoch == epoch && rs[a].project == p && Matches(rs[a].pool, which)
  }

  function ReadyOf(ready: map<Id, seq<Candidate>>, p: Id): seq<Candidate> {
    if p in ready then ready[p] else []
  }

  // ---------------------------------------------------------------- an open epoch

  // Project p started the epoch with queue whole and n credits: what is left of its credit stands for the
  // front of its queue, the rest of the queue is untouched, and its reservations came out of the first n.
  ghost predicate SpendsFor(s: Lane, p: Id, whole: seq<Candidate>, n: nat) {
    var queue, credit := ReadyOf(s.ready, p), Get(s.credits, p);
    && n <= |whole| && credit <= |queue| && queue[credit..] == whole[n..]
    && forall which ::
         |MadeFor(s.reservations, s.meta.epoch, p, which)| + Count(Pools(queue[..credit]), which) <= Count(Pools(whole[..n]), which)
  }

  ghost predicate Spending(s: Lane, whole: map<Id, seq<Candidate>>, credits: map<Id, nat>) {
    forall p :: SpendsFor(s, p, ReadyOf(whole, p), Get(credits, p))
  }

  lemma MadeForFewer(rs: map<Id, Reservation>, us: map<Id, Reservation>, epoch: nat, p: Id, which: Option<Resource>)
    requires us.Keys <= rs.Keys
    requires forall a :: a in us ==> us[a].epoch == rs[a].epoch && us[a].project == rs[a].project && us[a].pool == rs[a].pool
    ensures |MadeFor(us, epoch, p, which)| <= |MadeFor(rs, epoch, p, which)|
  {
    assert MadeFor(us, epoch, p, which) <= MadeFor(rs, epoch, p, which);
    SubsetIsSmaller(MadeFor(us, epoch, p, which), MadeFor(rs, epoch, p, which));
  }

  // Steps that only drop or confirm reservations spend nothing.
  lemma FewerSpends(s: Lane, u: Lane, p: Id, whole: seq<Candidate>, n: nat)
    requires SpendsFor(s, p, whole, n) && u.ready == s.ready && u.credits == s.credits && u.meta.epoch == s.meta.epoch
    requires u.reservations.Keys <= s.reservations.Keys
    requires forall a :: a in u.reservations ==>
               u.reservations[a].epoch == s.reservations[a].epoch && u.reservations[a].project == s.reservations[a].project
               && u.reservations[a].pool == s.reservations[a].pool
    ensures SpendsFor(u, p, whole, n)
  {
    hide MadeFor, Count;
    forall which ensures |MadeFor(u.reservations, s.meta.epoch, p, which)| <= |MadeFor(s.reservations, s.meta.epoch, p, which)| {
      MadeForFewer(s.reservations, u.reservations, s.meta.epoch, p, which);
    }
  }

  lemma MadeForAdd(rs: map<Id, Reservation>, a: Id, r: Reservation, p: Id, which: Option<Resource>)
    requires a !in rs
    ensures |MadeFor(rs[a := r], r.epoch, p, which)|
            == |MadeFor(rs, r.epoch, p, which)| + if r.project == p && Matches(r.pool, which) then 1 else 0
  {
    hide Matches, MadeFor;
    MadeForIs(rs, a, r, p, which);
  }

  lemma MadeForIs(rs: map<Id, Reservation>, a: Id, r: Reservation, p: Id, which: Option<Resource>)
    requires a !in rs
    ensures a !in MadeFor(rs, r.epoch, p, which)
    ensures MadeFor(rs[a := r], r.epoch, p, which) == MadeFor(rs, r.epoch, p, which) + if r.project == p && Matches(r.pool, which) then {a} else {}
  {
    hide Matches;
    var more := rs[a := r];
    forall b ensures b in MadeFor(more, r.epoch, p, which) <==> b in MadeFor(rs, r.epoch, p, which) || (b == a && r.project == p && Matches(r.pool, which)) {
      if b in rs { assert more[b] == rs[b]; }
    }
  }

  lemma PoolsFront(queue: seq<Candidate>, k: nat, which: Option<Resource>)
    requires 0 < k <= |queue|
    ensures Count(Pools(queue[..k]), which) == Count(Pools(queue[1..][..k - 1]), which) + if Matches(queue[0].pool, which) then 1 else 0
  {
    var front := queue[1..][..k - 1];
    assert Pools(queue[..k]) == [queue[0].pool] + Pools(front);
    CountSplit([queue[0].pool], Pools(front), which);
    assert [queue[0].pool][..0] == [];
  }

  // Reserving takes one candidate off the front and one credit, and adds one reservation from its pool.
  lemma ReserveSpends(s: Lane, p: Id, a: Id, lane: nat, until: nat, q: Id, whole: seq<Candidate>, n: nat)
    requires p in s.ready && s.ready[p] != [] && s.ready[p][0].project == p && Get(s.credits, p) > 0 && a !in s.reservations
    requires SpendsFor(s, q, whole, n)
    ensures SpendsFor(ReserveFor(s, p, a, lane, until).0, q, whole, n)
  {
    hide MadeFor, Count, Pools;
    var (u, r) := ReserveFor(s, p, a, lane, until);
    var queue, credit := ReadyOf(s.ready, q), Get(s.credits, q);
    forall which
      ensures |MadeFor(u.reservations, u.meta.epoch, q, which)| + Count(Pools(ReadyOf(u.ready, q)[..Get(u.credits, q)]), which)
              <= Count(Pools(whole[..n]), which)
    {
      MadeForAdd(s.reservations, a, r, q, which);
      if q == p {
        PoolsFront(queue, credit, which);
        assert ReadyOf(u.ready, q) == queue[1..];
      }
    }
    if q == p {
      assert ReadyOf(u.ready, q) == queue[1..];
      assert queue[1..][credit - 1..] == queue[credit..];
    }
  }

  lemma MadeForRemove(rs: map<Id, Reservation>, a: Id, p: Id, which: Option<Resource>)
    requires a in rs
    ensures |MadeFor(rs, rs[a].epoch, p, which)|
            == |MadeFor(rs - {a}, rs[a].epoch, p, which)| + if rs[a].project == p && Matches(rs[a].pool, which) then 1 else 0
  {
    assert rs == (rs - {a})[a := rs[a]];
    MadeForAdd(rs - {a}, a, rs[a], p, which);
  }

  // Giving a reservation back is the reverse.
  lemma RestoreSpends(s: Lane, a: Id, q: Id, whole: seq<Candidate>, n: nat)
    requires a in s.reservations && s.reservations[a].epoch == s.meta.epoch && s.meta.paused == Some(false)
    requires s.reservations[a].project == s.reservations[a].candidate.project && s.reservations[a].pool == s.reservations[a].candidate.pool
    requires SpendsFor(s, q, whole, n)
    ensures SpendsFor(Abort(s, a, true), q, whole, n)
  {
    hide MadeFor, Count, Pools;
    var r, u := s.reservations[a], Abort(s, a, true);
    var queue, credit := ReadyOf(s.ready, q), Get(s.credits, q);
    var after := ReadyOf(u.ready, q);
    if q == r.project {
      assert after == [r.candidate] + queue;
      assert after[1..] == queue;
    }
    forall which
      ensures |MadeFor(u.reservations, u.meta.epoch, q, which)| + Count(Pools(after[..Get(u.credits, q)]), which)
              <= Count(Pools(whole[..n]), which)
    {
      MadeForRemove(s.reservations, a, q, which);
      if q == r.project {
        PoolsFront(after, credit + 1, which);
      }
    }
    if q == r.project {
      assert after[credit + 1..] == queue[credit..];
    }
  }

  // Apart from reserving and aborting, no step on an open lane touches queues or credits.
  lemma OtherSteps(t: Tracked, step: Step, now: nat)
    requires Safe(t) && t.lane.meta.paused == Some(false) && Take(t, step, now).lane.meta.paused == Some(false)
    requires !step.DoReserve? && !step.DoAbort?
    ensures var s, u := t.lane, Take(t, step, now).lane;
            && u.ready == s.ready && u.credits == s.credits && u.meta.epoch == s.meta.epoch
            && u.reservations.Keys <= s.reservations.Keys
            && forall a :: a in u.reservations ==>
                 u.reservations[a].epoch == s.reservations[a].epoch && u.reservations[a].project == s.reservations[a].project
                 && u.reservations[a].pool == s.reservations[a].pool
  {
    hide Total, MadeIn, Covered, QueuesOf, Pruned, PrunedExpiry, Credited, QueuesOk, Rebuild, GrantCredit, Reserve, Abort;
    OpenLaneStays(t.lane, step, now);
  }

  // Scripts that prepare a paused lane leave an open one alone.
  lemma OpenLaneStays(s: Lane, step: Step, now: nat)
    requires s.meta.paused == Some(false)
    ensures step.DoRebuild? ==> Rebuild(s, step.lease, step.candidates, step.keep, step.renew, step.activeTTL, step.ttl, now) == (s, false)
    ensures step.DoGrant? ==> GrantCredit(s, step.lease, step.projects, now) == (s, false)
  {
  }

  // While a lane stays open, every step keeps the account of the epoch.
  lemma SpendingKeeps(t: Tracked, step: Step, now: nat, whole: map<Id, seq<Candidate>>, credits: map<Id, nat>)
    requires Safe(t) && t.lane.meta.paused == Some(false) && Spending(t.lane, whole, credits)
    requires Take(t, step, now).lane.meta.paused == Some(false)
    ensures Spending(Take(t, step, now).lane, whole, credits) && Take(t, step, now).lane.meta.epoch == t.lane.meta.epoch
  {
    hide SpendsFor, Safe, Take;
    EpochStays(t, step, now);
    var s, u := t.lane, Take(t, step, now).lane;
    forall p ensures SpendsFor(u, p, ReadyOf(whole, p), Get(credits, p)) {
      assert SpendsFor(s, p, ReadyOf(whole, p), Get(credits, p));
      if step.DoReserve? || step.DoAbort? {
        SpendingStep(t, step, now, p, ReadyOf(whole, p), Get(credits, p));
      } else {
        OtherSteps(t, step, now);
        FewerSpends(s, u, p, ReadyOf(whole, p), Get(credits, p));
      }
    }
  }

  lemma EpochStays(t: Tracked, step: Step, now: nat)
    requires Safe(t) && t.lane.meta.paused == Some(false) && Take(t, step, now).lane.meta.paused == Some(false)
    ensures Take(t, step, now).lane.meta.epoch == t.lane.meta.epoch
  {
    hide Total, MadeIn, Covered, QueuesOf, Pruned, PrunedExpiry, Credited, QueuesOk, ReservationsOk;
  }

  lemma SpendingStep(t: Tracked, step: Step, now: nat, q: Id, whole: seq<Candidate>, n: nat)
    requires Safe(t) && SpendsFor(t.lane, q, whole, n) && (step.DoReserve? || step.DoAbort?)
    ensures SpendsFor(Take(t, step, now).lane, q, whole, n)
  {
    hide SpendsFor, Safe;
    if step.DoReserve? {
      ReserveStep(t, step.attempt, step.ttl, now, q, whole, n);
    } else {
      AbortStep(t, step.attempt, step.restore, q, whole, n);
    }
  }

  lemma ReserveStep(t: Tracked, a: Id, ttl: nat, now: nat, q: Id, whole: seq<Candidate>, n: nat)
    requires Safe(t) && SpendsFor(t.lane, q, whole, n)
    ensures SpendsFor(Reserve(t.lane, a, t.index, ttl, now).0, q, whole, n)
  {
    hide SpendsFor, Total, MadeIn, Covered, ReserveFor;
    var s := t.lane;
    if s.meta.paused == Some(false) && s.meta.expiresAt > now && a !in s.reservations && FirstServable(s, now) < |s.grants| {
      var k := FirstServable(s, now);
      PopKeepsQueues(s.ready, s.grants[k]);
      var v := s.(grants := s.grants[k + 1..]);
      FewerSpends(s, v, q, whole, n);
      ReserveSpends(v, s.grants[k], a, t.index, now + ttl, q, whole, n);
    } else {
      FewerSpends(s, Reserve(s, a, t.index, ttl, now).0, q, whole, n);
    }
  }

  lemma AbortStep(t: Tracked, a: Id, restore: bool, q: Id, whole: seq<Candidate>, n: nat)
    requires Safe(t) && SpendsFor(t.lane, q, whole, n)
    ensures SpendsFor(Abort(t.lane, a, restore), q, whole, n)
  {
    hide SpendsFor, Total, MadeIn, Covered, QueuesOk;
    var s := t.lane;
    if a in s.reservations && restore && s.meta.paused == Some(false) && s.meta.epoch == s.reservations[a].epoch {
      RestoreSpends(s, a, q, whole, n);
    } else {
      FewerSpends(s, Abort(s, a, restore), q, whole, n);
    }
  }

  // ---------------------------------------------------------------- preparing an epoch

  // The lane is closed for the lease, and nothing was reserved under its fence.
  ghost predicate ClosedFor(s: Lane, lease: Lease) {
    && s.meta.owner == lease.owner && s.meta.token == lease.token && s.meta.fence == lease.fence
    && s.meta.paused == Some(true) && MadeIn(s.reservations, lease.fence) == {}
  }

  // It holds the queues, and exactly the credit of the grants so far.
  ghost predicate Prepared(s: Lane, lease: Lease, whole: map<Id, seq<Candidate>>, granted: seq<Id>) {
    ClosedFor(s, lease) && s.ready == whole && s.credits == Credited(map[], granted) && s.grants == granted
  }

  // A lease newer than any before closes the lane.
  lemma PauseCloses(t: Tracked, lease: Lease, now: nat)
    requires Safe(t) && lease.fence > t.lane.meta.fence && Pause(t.lane, lease, now).1
    ensures ClosedFor(Pause(t.lane, lease, now).0, lease)
  {
    hide Covered, QueuesOk, Total;
    assert MadeIn(t.lane.reservations, lease.fence) == {};
  }

  lemma RebuildPrepares(s: Lane, lease: Lease, cs: seq<Candidate>, keep: set<Id>, renew: set<Id>, activeTTL: nat, ttl: nat, now: nat)
    requires ClosedFor(s, lease) && Rebuild(s, lease, cs, keep, renew, activeTTL, ttl, now).1
    ensures Prepared(Rebuild(s, lease, cs, keep, renew, activeTTL, ttl, now).0, lease, QueuesOf(cs), [])
  {
    hide QueuesOf;
    var u := Rebuild(s, lease, cs, keep, renew, activeTTL, ttl, now).0;
    forall a | a in u.reservations ensures u.reservations[a].epoch != lease.fence {
      assert a !in MadeIn(s.reservations, lease.fence);
    }
  }

  lemma GrantPrepares(s: Lane, lease: Lease, whole: map<Id, seq<Candidate>>, granted: seq<Id>, batch: seq<Id>, now: nat)
    requires Prepared(s, lease, whole, granted) && GrantCredit(s, lease, batch, now).1
    ensures Prepared(GrantCredit(s, lease, batch, now).0, lease, whole, granted + batch)
  {
    CreditedSplit(map[], granted, batch);
  }

  lemma {:induction false} CreditedSplit(credits: map<Id, nat>, s: seq<Id>, t: seq<Id>)
    ensures Credited(Credited(credits, s), t) == Credited(credits, s + t)
  {
    if t == [] {
      assert s + t == s;
    } else {
      CreditedSplit(credits, s, t[..|t| - 1]);
      assert (s + t)[..|s + t| - 1] == s + t[..|t| - 1];
    }
  }

  // Meanwhile admission can only drop or confirm older reservations.
  lemma PreparedStays(t: Tracked, step: Step, now: nat, lease: Lease, whole: map<Id, seq<Candidate>>, granted: seq<Id>)
    requires Safe(t) && Prepared(t.lane, lease, whole, granted)
    requires step.DoReserve? || step.DoAbort? || step.DoConfirm? || step.DoExpire?
    ensures Prepared(Take(t, step, now).lane, lease, whole, granted)
  {
    hide Covered, QueuesOk, Total, Credited;
    var s, u := t.lane, Take(t, step, now).lane;
    forall a | a in u.reservations ensures u.reservations[a].epoch != lease.fence {
      assert a !in MadeIn(s.reservations, lease.fence);
    }
  }

  // Opening a prepared lane opens the account of the epoch.
  lemma ActivateOpens(s: Lane, lease: Lease, whole: map<Id, seq<Candidate>>, granted: seq<Id>, now: nat)
    requires Prepared(s, lease, whole, granted) && Activate(s, lease, lease.fence, now).1
    requires forall p :: Occurrences(granted, p) <= |ReadyOf(whole, p)|
    ensures Spending(Activate(s, lease, lease.fence, now).0, whole, Credited(map[], granted))
  {
    hide Credited, Count, Occurrences;
    var u := Activate(s, lease, lease.fence, now).0;
    forall p ensures SpendsFor(u, p, ReadyOf(whole, p), Get(u.credits, p)) {
      CreditedIs(map[], granted, p);
      forall which ensures MadeFor(u.reservations, u.meta.epoch, p, which) == {} {
        assert MadeFor(u.reservations, u.meta.epoch, p, which) <= MadeIn(s.reservations, lease.fence);
      }
    }
  }

  // ---------------------------------------------------------------- the bound of one lane

  // The reservations of the open epoch, from one pool or any.
  ghost function SpentOn(s: Lane, which: Option<Resource>): set<Id> {
    set a | a in s.reservations && s.reservations[a].epoch == s.meta.epoch && Matches(s.reservations[a].pool, which)
  }

  ghost function SpentBy(s: Lane, ps: set<Id>, which: Option<Resource>): set<Id> {
    set a | a in SpentOn(s, which) && s.reservations[a].project in ps
  }

  function UseIn(admissions: seq<Admission>, ps: set<Id>, which: Option<Resource>): nat {
    if admissions == [] then 0
    else
      var last := admissions[|admissions| - 1];
      UseIn(admissions[..|admissions| - 1], ps, which) + if last.project in ps && Matches(last.pool, which) then 1 else 0
  }

  lemma {:induction false} UseInSplit(admissions: seq<Admission>, ps: set<Id>, p: Id, which: Option<Resource>)
    requires p in ps
    ensures UseIn(admissions, ps, which) == UseIn(admissions, ps - {p}, which) + Count(PoolsOf(admissions, p), which)
  {
    if admissions != [] {
      var rest, last := admissions[..|admissions| - 1], admissions[|admissions| - 1];
      UseInSplit(rest, ps, p, which);
      var pools := PoolsOf(rest, p);
      if last.project == p {
        assert (pools + [last.pool])[..|pools|] == pools;
      } else {
        assert pools + [] == pools;
      }
    }
  }

  lemma {:induction false} UseInAtMost(admissions: seq<Admission>, ps: set<Id>, which: Option<Resource>)
    ensures UseIn(admissions, ps, which) <= Use(admissions, which)
  {
    if admissions != [] {
      UseInAtMost(admissions[..|admissions| - 1], ps, which);
    }
  }

  // The admissions of every project are the beginning of its queue.
  ghost predicate Allotted(admissions: seq<Admission>, whole: map<Id, seq<Candidate>>, credits: map<Id, nat>) {
    forall p :: Get(credits, p) <= |ReadyOf(whole, p)| && PoolsOf(admissions, p) == Pools(ReadyOf(whole, p)[..Get(credits, p)])
  }

  lemma {:induction false} SpentByAtMost(s: Lane, ps: set<Id>, admissions: seq<Admission>, whole: map<Id, seq<Candidate>>,
                                        credits: map<Id, nat>, which: Option<Resource>)
    requires Spending(s, whole, credits) && Allotted(admissions, whole, credits)
    ensures |SpentBy(s, ps, which)| <= UseIn(admissions, ps, which)
  {
    if ps == {} {
      assert SpentBy(s, ps, which) == {};
    } else {
      var p :| p in ps;
      hide Count, Pools, PoolsOf, UseIn, SpentBy, MadeFor;
      SpentByAtMost(s, ps - {p}, admissions, whole, credits, which);
      UseInSplit(admissions, ps, p, which);
      SpentSplit(s, ps, p, which);
      assert SpendsFor(s, p, ReadyOf(whole, p), Get(credits, p));
    }
  }

  lemma SpentSplit(s: Lane, ps: set<Id>, p: Id, which: Option<Resource>)
    requires p in ps
    ensures |SpentBy(s, ps, which)| == |SpentBy(s, ps - {p}, which)| + |MadeFor(s.reservations, s.meta.epoch, p, which)|
  {
    hide Matches;
    var others, mine := SpentBy(s, ps - {p}, which), MadeFor(s.reservations, s.meta.epoch, p, which);
    assert SpentBy(s, ps, which) == others + mine;
    assert others !! mine;
  }

  // An open lane never has more reservations of its epoch, in all or from one pool, than it was allotted.
  lemma LaneWithinAllotment(s: Lane, admissions: seq<Admission>, whole: map<Id, seq<Candidate>>, credits: map<Id, nat>, which: Option<Resource>)
    requires Spending(s, whole, credits) && Allotted(admissions, whole, credits)
    ensures |SpentOn(s, which)| <= Use(admissions, which)
  {
    hide Spending, Allotted, UseIn, Use;
    var ps := set a | a in s.reservations :: s.reservations[a].project;
    assert SpentBy(s, ps, which) == SpentOn(s, which);
    SpentByAtMost(s, ps, admissions, whole, credits, which);
    UseInAtMost(admissions, ps, which);
  }

  // As long as the lane stays open, the account opened with the epoch stays in order.
  lemma {:induction false} SpendingAlways(steps: seq<(Step, nat)>, states: seq<Tracked>, i: nat, j: nat,
                                          whole: map<Id, seq<Candidate>>, credits: map<Id, nat>)
    requires IsHistory(steps, states) && i <= j < |states| && Spending(states[i].lane, whole, credits)
    requires forall k :: i <= k <= j ==> states[k].lane.meta.paused == Some(false)
    ensures Spending(states[j].lane, whole, credits) && states[j].lane.meta.epoch == states[i].lane.meta.epoch
    decreases j
  {
    hide Safe, Take, Spending;
    if i < j {
      SpendingAlways(steps, states, i, j - 1, whole, credits);
      SafeAlways(steps, states, j - 1);
      assert TakesTo(states[j - 1], steps[j - 1].0, steps[j - 1].1, states[j]);
      SpendingKeeps(states[j - 1], steps[j - 1].0, steps[j - 1].1, whole, credits);
    }
  }

  // ---------------------------------------------------------------- the plan and the lanes

  function ProjectsIn(admissions: seq<Admission>): (r: seq<Id>)
    ensures |r| == |admissions|
  {
    if admissions == [] then [] else ProjectsIn(admissions[..|admissions| - 1]) + [admissions[|admissions| - 1].project]
  }

  lemma {:induction false} OccurrencesAre(admissions: seq<Admission>, p: Id)
    ensures Occurrences(ProjectsIn(admissions), p) == |PoolsOf(admissions, p)|
  {
    if admissions != [] {
      var rest := ProjectsIn(admissions[..|admissions| - 1]);
      OccurrencesAre(admissions[..|admissions| - 1], p);
      assert ProjectsIn(admissions)[..|rest|] == rest;
    }
  }

  // A lane holds the whole queue of its own projects and nothing of others.
  lemma {:induction false} LaneQueues(s: seq<Candidate>, digest: Id -> nat, count: nat, l: nat, p: Id)
    requires count > 0
    ensures QueueOf(LaneCandidates(s, digest, count, l), p) == if LaneFor(digest, p, count) == l then QueueOf(s, p) else []
  {
    if s != [] {
      var rest, last := s[..|s| - 1], s[|s| - 1];
      LaneQueues(rest, digest, count, l, p);
      var lane := LaneCandidates(rest, digest, count, l);
      if LaneFor(digest, last.project, count) == l {
        assert (lane + [last])[..|lane|] == lane;
      } else {
        assert lane + [] == lane;
      }
    }
  }

  lemma {:induction false} LaneLacksOthers(order: seq<Admission>, digest: Id -> nat, count: nat, l: nat, p: Id)
    requires count > 0 && LaneFor(digest, p, count) != l
    ensures PoolsOf(LaneAdmissions(order, digest, count, l), p) == []
  {
    if order != [] {
      var rest, last := order[..|order| - 1], order[|order| - 1];
      LaneLacksOthers(rest, digest, count, l, p);
      var lane := LaneAdmissions(rest, digest, count, l);
      if LaneFor(digest, last.project, count) == l {
        assert (lane + [last])[..|lane|] == lane;
      } else {
        assert lane + [] == lane;
      }
    }
  }

  // What the plan gives a lane is the beginning of the queues it gives it.
  lemma PlanAllots(sorted: seq<Candidate>, inflight: seq<Inflight>, digest: Id -> nat, count: nat, window: nat,
                   windows: map<Resource, int>, epoch: nat, l: nat)
    requires count > 0 && epoch > 0 && l < count
    ensures var lane := PlanOf(sorted, inflight, digest, count, window, windows, epoch).lanes[l];
            && Allotted(lane.admissions, QueuesOf(lane.candidates), Credited(map[], ProjectsIn(lane.admissions)))
            && forall p :: Occurrences(ProjectsIn(lane.admissions), p) <= |ReadyOf(QueuesOf(lane.candidates), p)|
  {
    hide Filled, QueueOf, PoolsOf, Occurrences, ProjectsIn, Credited, Pools, LaneCandidates, LaneAdmissions, Distinct, LaneFor;
    var plan := PlanOf(sorted, inflight, digest, count, window, windows, epoch);
    var lane := plan.lanes[l];
    forall p
      ensures Get(Credited(map[], ProjectsIn(lane.admissions)), p) == Occurrences(ProjectsIn(lane.admissions), p) <= |ReadyOf(QueuesOf(lane.candidates), p)|
      ensures PoolsOf(lane.admissions, p) == Pools(ReadyOf(QueuesOf(lane.candidates), p)[..Get(Credited(map[], ProjectsIn(lane.admissions)), p)])
    {
      CreditedIs(map[], ProjectsIn(lane.admissions), p);
      OccurrencesAre(lane.admissions, p);
      LaneQueues(sorted, digest, count, l, p);
      if p !in ProjectsOf(lane.candidates) { NoQueue(lane.candidates, p); }
      if LaneFor(digest, p, count) == l {
        GrantedIs(sorted, inflight, digest, count, window, windows, epoch, p);
      } else {
        LaneLacksOthers(Filled(sorted, inflight, window, windows, epoch).order, digest, count, l, p);
      }
    }
  }

  ghost function SumSpent(lanes: seq<Lane>, which: Option<Resource>): nat {
    if lanes == [] then 0 else SumSpent(lanes[..|lanes| - 1], which) + |SpentOn(lanes[|lanes| - 1], which)|
  }

  lemma {:induction false} SumWithinLanes(lanes: seq<Lane>, admissions: seq<seq<Admission>>, which: Option<Resource>)
    requires |lanes| == |admissions| && forall l :: 0 <= l < |lanes| ==> |SpentOn(lanes[l], which)| <= Use(admissions[l], which)
    ensures SumSpent(lanes, which) <= LanesUse(admissions, which)
  {
    if lanes != [] {
      SumWithinLanes(lanes[..|lanes| - 1], admissions[..|lanes| - 1], which);
    }
  }

  // Lane l is in the epoch that the plan opened on it.
  ghost predicate InEpoch(plan: Plan, l: nat, s: Lane)
    requires l < |plan.lanes|
  {
    Spending(s, QueuesOf(plan.lanes[l].candidates), Credited(map[], ProjectsIn(plan.lanes[l].admissions)))
  }

  // Whatever happens on the lanes during an epoch, the reservations of the epoch over all lanes fit into
  // what the attempts in flight leave of the global window and of every pool window.
  lemma EpochWithinWindows(sorted: seq<Candidate>, inflight: seq<Inflight>, digest: Id -> nat, count: nat, window: nat,
                           windows: map<Resource, int>, epoch: nat, lanes: seq<Lane>)
    requires count > 0 && epoch > 0 && |lanes| == count
    requires |PlanOf(sorted, inflight, digest, count, window, windows, epoch).lanes| == count
    requires forall l :: 0 <= l < count ==> InEpoch(PlanOf(sorted, inflight, digest, count, window, windows, epoch), l, lanes[l])
    ensures SumSpent(lanes, None) <= AtLeastZero(window - |Distinct(inflight)|)
    ensures forall c :: SumSpent(lanes, Some(c)) <= RoomOf(windows, Distinct(inflight), c)
  {
    hide PlanOf, Spending, Allotted, QueuesOf, Credited, LanesUse, Use, SumSpent, SpentOn, Distinct, GrantedTo, CouldBeServed, LevelOf, QueueOf, RoomOf;
    var plan := PlanOf(sorted, inflight, digest, count, window, windows, epoch);
    PlanIsFair(sorted, inflight, digest, count, window, windows, epoch);
    forall which ensures SumSpent(lanes, which) <= LanesUse(AllAdmissions(plan), which) {
      forall l | 0 <= l < count ensures |SpentOn(lanes[l], which)| <= Use(AllAdmissions(plan)[l], which) {
        PlanAllots(sorted, inflight, digest, count, window, windows, epoch, l);
        LaneWithinAllotment(lanes[l], plan.lanes[l].admissions, QueuesOf(plan.lanes[l].candidates),
                            Credited(map[], ProjectsIn(plan.lanes[l].admissions)), which);
      }
      SumWithinLanes(lanes, AllAdmissions(plan), which);
    }
    TotalIs(sorted, inflight, digest, count, window, windows, epoch);
  }

  lemma TotalIs(sorted: seq<Candidate>, inflight: seq<Inflight>, digest: Id -> nat, count: nat, window: nat,
                windows: map<Resource, int>, epoch: nat)
    requires count > 0 && epoch > 0
    ensures var plan := PlanOf(sorted, inflight, digest, count, window, windows, epoch); LanesUse(AllAdmissions(plan), None) == plan.total
  {
    hide Filled, LanesUse, Use, UseBelow;
    var order := Filled(sorted, inflight, window, windows, epoch).order;
    var plan := PlanOf(sorted, inflight, digest, count, window, windows, epoch);
    LanesAddUp(AllAdmissions(plan), order, digest, count, None);
    UseBelowEnds(order, digest, count, None);
    UseIs(order, Builtin);
  }
}
