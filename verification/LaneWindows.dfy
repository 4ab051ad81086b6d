/**
 A whole rebalance together with the reservations it finds on the lanes: they are listed while the lanes
 are closed, merged into the snapshot of attempts in flight, kept or dropped by the rebuild, and charged
 by the plan.  So the windows hold for everything that is out, whatever epoch it comes from.
 */
module LaneWindows {
  import opened Ids
  import opened Json
  import opened Planner
  import opened Reservations
  import opened Lanes
  import opened LaneSafety
  import opened LaneEpochs
  import opened LaneRuns

  // ---------------------------------------------------------------- where reservations come from

  // The same reservation, though it may have been confirmed since.
  predicate SameReservation(r: Reservation, s: Reservation) {
    s == r.(confirmed := s.confirmed)
  }

  // Every reservation was there before, or belongs to the epoch that is open.
  ghost predicate Inherits(rs: map<Id, Reservation>, us: map<Id, Reservation>, fence: nat) {
    forall a :: a in us ==> (a in rs && SameReservation(rs[a], us[a])) || us[a].epoch == fence
  }

  // Whatever the step, a new reservation is one of the epoch of the fence; and a closed lane gets none.
  lemma StepInherits(t: Tracked, step: Step, now: nat)
    requires Safe(t)
    ensures var s, u := t.lane, Take(t, step, now).lane;
            && Inherits(s.reservations, u.reservations, s.meta.fence)
            && (s.meta.paused != Some(false) ==>
                  forall a :: a in u.reservations ==> a in s.reservations && SameReservation(s.reservations[a], u.reservations[a]))
  {
    OpenEpoch(t);
    hide Safe, Reserve, Rebuild, GrantCredit, Abort, Confirm, Expire, Pause, Activate;
    match step
    case DoPause(lease) => NoneNew(t.lane, lease, now);
    case DoActivate(lease) => NoneNew(t.lane, lease, now);
    case DoReserve(a, ttl) => ReserveAdds(t.lane, a, t.index, ttl, now);
    case DoGrant(lease, projects) => GrantAdds(t.lane, lease, projects, now);
    case DoRebuild(lease, cs, keep, renew, activeTTL, ttl) => RebuildDrops(t.lane, lease, cs, keep, renew, activeTTL, ttl, now);
    case DoAbort(a, restore) => AbortDrops(t.lane, a, restore);
    case DoConfirm(a, ttl) => ConfirmChanges(t.lane, a, ttl, now);
    case DoExpire => ExpireDrops(t.lane, now);
  }

  lemma NoneNew(s: Lane, lease: Lease, now: nat)
    ensures Pause(s, lease, now).0.reservations == s.reservations && Activate(s, lease, lease.fence, now).0.reservations == s.reservations
  {
  }

  lemma AbortDrops(s: Lane, a: Id, restore: bool)
    ensures Abort(s, a, restore).reservations == s.reservations - {a}
  {
  }

  lemma ConfirmChanges(s: Lane, a: Id, ttl: nat, now: nat)
    ensures var rs := Confirm(s, a, ttl, now).reservations;
            forall b :: b in rs ==> b in s.reservations && SameReservation(s.reservations[b], rs[b])
  {
  }

  lemma ExpireDrops(s: Lane, now: nat)
    ensures var rs := Expire(s, now).reservations; forall b :: b in rs ==> b in s.reservations && rs[b] == s.reservations[b]
  {
  }

  lemma GrantAdds(s: Lane, lease: Lease, projects: seq<Id>, now: nat)
    ensures GrantCredit(s, lease, projects, now).0.reservations == s.reservations
  {
    hide Credited;
  }

  lemma RebuildDrops(s: Lane, lease: Lease, cs: seq<Candidate>, keep: set<Id>, renew: set<Id>, activeTTL: nat, ttl: nat, now: nat)
    ensures var rs := Rebuild(s, lease, cs, keep, renew, activeTTL, ttl, now).0.reservations;
            forall a :: a in rs ==> a in s.reservations && SameReservation(s.reservations[a], rs[a])
  {
    hide QueuesOf, PrunedExpiry;
  }

  lemma OpenEpoch(t: Tracked)
    requires Safe(t)
    ensures (t.lane.meta.paused == Some(false) ==> t.lane.meta.epoch == t.lane.meta.fence)
            && forall p :: p in t.lane.ready ==> t.lane.ready[p] != []
  {
    hide Covered, Total, MadeIn, ReservationsOk;
  }

  lemma ReserveAdds(s: Lane, a: Id, index: nat, ttl: nat, now: nat)
    requires forall p :: p in s.ready ==> s.ready[p] != []
    ensures var rs := Reserve(s, a, index, ttl, now).0.reservations;
            rs == s.reservations || (a in rs && rs == s.reservations[a := rs[a]] && rs[a].epoch == s.meta.epoch && s.meta.paused == Some(false))
  {
    hide FirstServable;
  }

  // From the listing to the rebuild reservations only go or are confirmed.
  lemma {:induction false} ListedBefore(r: Rebalance, candidates: seq<Candidate>, k: nat, a: Id)
    requires InOrder(r) && Applied(r, candidates) && r.list < k <= r.rebuild && a in r.states[k].lane.reservations
    ensures a in ListedOn(r) && SameReservation(ListedOn(r)[a], r.states[k].lane.reservations[a])
    decreases k
  {
    hide IsHistory, Safe, Take, Foreign, Rebuild, Activate, Permitted, Pause;
    if k > r.list + 1 {
      NextState(r, k - 1);
      ClosedUntilRebuilt(r, candidates, k - 1);
      StepInherits(r.states[k - 1], r.steps[k - 1].0, r.steps[k - 1].1);
      ListedBefore(r, candidates, k - 1, a);
    }
  }

  // What the balancer found on the lane.
  ghost function ListedOn(r: Rebalance): map<Id, Reservation>
    requires InOrder(r)
  {
    r.states[r.list + 1].lane.reservations
  }

  // The rebuild drops what is not to be kept.
  lemma RebuiltKeeps(r: Rebalance, candidates: seq<Candidate>, a: Id)
    requires InOrder(r) && Applied(r, candidates)
    ensures a in r.states[r.rebuild + 1].lane.reservations <==> a in r.states[r.rebuild].lane.reservations && a in r.steps[r.rebuild].0.keep
    ensures a in r.states[r.rebuild + 1].lane.reservations ==>
              SameReservation(r.states[r.rebuild].lane.reservations[a], r.states[r.rebuild + 1].lane.reservations[a])
  {
    hide IsHistory, Safe, Permitted, Pause, Activate, QueuesOf, PrunedExpiry;
    NextState(r, r.rebuild);
  }

  // From the rebuild on, every reservation is of the epoch or was listed and kept.
  lemma {:induction false} OfEpochOrKept(r: Rebalance, candidates: seq<Candidate>, k: nat, a: Id)
    requires InOrder(r) && Applied(r, candidates) && r.rebuild < k <= r.until && a in r.states[k].lane.reservations
    ensures r.states[k].lane.reservations[a].epoch == r.lease.fence
            || (a in r.steps[r.rebuild].0.keep && a in ListedOn(r) && SameReservation(ListedOn(r)[a], r.states[k].lane.reservations[a]))
    decreases k
  {
    hide IsHistory, Safe, Take, Foreign, Applied, Permitted;
    if k == r.rebuild + 1 {
      RebuiltKeeps(r, candidates, a);
      ListedBefore(r, candidates, r.rebuild, a);
    } else {
      NextState(r, k - 1);
      GrantedCounted(r, candidates, k - 1);
      StepInherits(r.states[k - 1], r.steps[k - 1].0, r.steps[k - 1].1);
      if a in r.states[k - 1].lane.reservations {
        OfEpochOrKept(r, candidates, k - 1, a);
      }
    }
  }

  // ---------------------------------------------------------------- a balance of all lanes

  // What one rebalance works with: the attempts in flight and candidates it loaded, the reservations it
  // listed, what merging them gave, and the dimensions of its plan.
  datatype Balance = Balance(
    snapshot: Snapshot, listed: seq<Reservation>, merged: Snapshot, keep: map<nat, set<Id>>, renew: map<nat, set<Id>>,
    sorted: seq<Candidate>, digest: Id -> nat, count: nat, window: nat, windows: map<Resource, int>, epoch: nat)

  ghost function PlanFor(b: Balance): Plan
    requires b.count > 0 && b.epoch > 0
  {
    PlanOf(b.sorted, b.merged.inflight, b.digest, b.count, b.window, b.windows, b.epoch)
  }

  ghost predicate Merges(b: Balance) {
    && b.count > 0 && b.epoch > 0 && IsMerge(b.snapshot, b.listed, b.digest, b.count, b.merged, b.keep, b.renew)
    && multiset(b.sorted) == multiset(b.merged.candidates)
  }

  // The history of lane l carries out the balance: what was listed on it, it was merged with the others; and it
  // was rebuilt with what the merge keeps and the plan gives.
  ghost predicate OnLane(b: Balance, l: nat, r: Rebalance)
    requires Merges(b) && |PlanFor(b).lanes| == b.count && l < b.count
  {
    && CarriesOut(r, PlanFor(b).lanes[l]) && r.states[r.pause].index == l && r.lease.fence == b.epoch
    && (forall a :: a in ListedOn(r) ==> ListedOn(r)[a] in b.listed)
    && r.steps[r.rebuild].0.keep == GetSet(b.keep, l) && r.steps[r.rebuild].0.renew == GetSet(b.renew, l)
  }

  ghost predicate Balanced(b: Balance, rs: seq<Rebalance>) {
    && Merges(b) && |PlanFor(b).lanes| == b.count == |rs|
    && (forall l :: 0 <= l < |rs| ==> OnLane(b, l, rs[l]) && rs[l].until < |rs[l].states|)
  }

  // ---------------------------------------------------------------- balances exist

  lemma MergeOfNothing(snapshot: Snapshot, digest: Id -> nat, count: nat) returns (keep: map<nat, set<Id>>)
    requires count > 0
    ensures IsMerge(snapshot, [], digest, count, snapshot, keep, keep)
  {
    keep := map l | 0 <= l < count :: Renewed(snapshot.inflight, digest, count, l);
    forall l: nat ensures GetSet(keep, l) == Renewed(snapshot.inflight, digest, count, l) {
      if l >= count { assert Renewed(snapshot.inflight, digest, count, l) == {}; }
    }
    assert ReservedNodes(snapshot.inflight, [], 0) == {};
    WithoutNone(snapshot.candidates);
  }

  lemma {:induction false} WithoutNone(s: seq<Candidate>)
    ensures Without(s, {}) == s
  {
    if s != [] {
      WithoutNone(s[..|s| - 1]);
      assert s == s[..|s| - 1] + [s[|s| - 1]];
    }
  }

  // A balancer that finds fresh lanes carries out its balance on all of them, whatever the snapshot.
  lemma FreshBalance(snapshot: Snapshot, digest: Id -> nat, count: nat, window: nat, windows: map<Resource, int>, lease: Lease)
    returns (b: Balance, rs: seq<Rebalance>)
    requires count > 0 && lease.fence > 0 && lease.expiresAt > 0
    ensures Balanced(b, rs) && b.snapshot == snapshot && b.count == count && b.window == window && b.windows == windows
  {
    var keep := MergeOfNothing(snapshot, digest, count);
    b := Balance(snapshot, [], snapshot, keep, keep, snapshot.candidates, digest, count, window, windows, lease.fence);
    assert Merges(b) by { hide IsMerge; }
    hide Merges, PlanOf, OnLane;
    PlanHasLanes(b);
    rs := FreshLanes(b, lease, count);
  }

  lemma PlanHasLanes(b: Balance)
    requires Merges(b)
    ensures |PlanFor(b).lanes| == b.count
  {
    hide IsMerge, PlanOf, GrantedTo, CouldBeServed, LevelOf, QueueOf, RoomOf, LanesUse, Distinct;
    PlanIsFair(b.sorted, b.merged.inflight, b.digest, b.count, b.window, b.windows, b.epoch);
  }

  lemma {:induction false} FreshLanes(b: Balance, lease: Lease, n: nat) returns (rs: seq<Rebalance>)
    requires Merges(b) && |PlanFor(b).lanes| == b.count && n <= b.count && b.listed == [] && lease.fence == b.epoch && lease.expiresAt > 0
    ensures |rs| == n && forall l :: 0 <= l < n ==> OnLane(b, l, rs[l]) && rs[l].until < |rs[l].states|
  {
    hide Merges, PlanOf;
    if n == 0 {
      rs := [];
    } else {
      var before := FreshLanes(b, lease, n - 1);
      hide OnLane;
      var r := FreshLane(b, lease, n - 1);
      rs := before + [r];
    }
  }

  lemma FreshLane(b: Balance, lease: Lease, l: nat) returns (r: Rebalance)
    requires Merges(b) && |PlanFor(b).lanes| == b.count && l < b.count && b.listed == [] && lease.fence == b.epoch && lease.expiresAt > 0
    ensures OnLane(b, l, r) && r.until < |r.states|
  {
    hide IsMerge, PlanOf, InOrder, Applied, Granted;
    var states := [Tracked(EMPTY, l, 0, 0)];
    r := PlanCarriedOut([], states, lease, PlanFor(b).lanes[l], GetSet(b.keep, l), GetSet(b.renew, l), 0, 0, 0);
    assert r.states[0] == states[0];
    InOrderRanges(r);
  }

  lemma InOrderRanges(r: Rebalance)
    requires InOrder(r)
    ensures r.until < |r.states|
  {
  }

  // ---------------------------------------------------------------- nothing is forgotten

  // A reservation that is not confirmed yet, or whose attempt is in flight, is charged and kept on its lane,
  // and its node is not offered again.
  lemma ListedIsKept(b: Balance, l: nat, r: Rebalance, a: Id)
    requires Merges(b) && |PlanFor(b).lanes| == b.count && l < b.count && OnLane(b, l, r)
    requires a in ListedOn(r) && (!ListedOn(r)[a].confirmed || a in AttemptsIn(b.snapshot.inflight))
    ensures a in AttemptsIn(b.merged.inflight) && a in GetSet(b.keep, l)
    ensures a in r.states[r.rebuild].lane.reservations ==> a in r.states[r.rebuild + 1].lane.reservations
    ensures forall c :: c in b.sorted ==> c.nodeRun != ListedOn(r)[a].candidate.nodeRun
  {
    var v := ListedOn(r)[a];
    var lane := PlanFor(b).lanes[l];
    assert InOrder(r) && Applied(r, lane.candidates);
    ListedHere(r, lane.candidates, a);
    hide PlanFor, CarriesOut, Applied, InOrder;
    var i :| 0 <= i < |b.listed| && b.listed[i] == v;
    ListedCounts(b, i);
    RebuiltKeeps(r, lane.candidates, a);
  }

  // Reservations say where they are.
  lemma ListedHere(r: Rebalance, candidates: seq<Candidate>, a: Id)
    requires InOrder(r) && Applied(r, candidates) && a in ListedOn(r)
    ensures ListedOn(r)[a].attempt == a && ListedOn(r)[a].lane == r.states[r.pause].index
  {
    hide IsHistory, Permitted, Applied, QueuesOk, Covered, Total, MadeIn;
    SafeAlways(r.steps, r.states, r.list + 1);
    GrantedCounted(r, candidates, r.list + 1);
  }

  lemma ListedCounts(b: Balance, i: nat)
    requires Merges(b) && i < |b.listed| && (!b.listed[i].confirmed || b.listed[i].attempt in AttemptsIn(b.snapshot.inflight))
    ensures b.listed[i].attempt in AttemptsIn(b.merged.inflight) && b.listed[i].attempt in GetSet(b.keep, b.listed[i].lane)
    ensures forall c :: c in b.sorted ==> c.nodeRun != b.listed[i].candidate.nodeRun
  {
    hide AttemptsIn, Renewed, GetSet, Distinct, ChargedFor;
    assert Counts(b.snapshot.inflight, b.listed, i);
    assert b.listed[i].candidate.nodeRun in ReservedNodes(b.snapshot.inflight, b.listed, |b.listed|);
    forall c | c in b.sorted ensures c in b.merged.candidates {
      assert c in multiset(b.sorted);
    }
  }

  // ---------------------------------------------------------------- counting

  // The attempts in flight, from one pool or any.
  ghost function FlightOf(inflight: seq<Inflight>, which: Option<Resource>): set<Id> {
    set v | v in inflight && Matches(v.pool, which) :: v.attempt
  }

  // The attempts with a reservation on some lane, of whatever epoch.
  ghost function HeldOn(lanes: seq<Lane>, which: Option<Resource>): set<Id> {
    if lanes == [] then {} else HeldOn(lanes[..|lanes| - 1], which) + HeldBy(lanes[|lanes| - 1], which)
  }

  ghost function HeldBy(s: Lane, which: Option<Resource>): set<Id> {
    set a | a in s.reservations && Matches(s.reservations[a].pool, which)
  }

  lemma UnionIsSmaller(a: set<Id>, b: set<Id>)
    ensures |a + b| <= |a| + |b|
  {
    assert a + b == a + (b - a);
    SubsetIsSmaller(b - a, b);
  }

  // If on every lane the reservations are of its epoch or known, so they are on all together.
  lemma {:induction false} HeldAtMost(lanes: seq<Lane>, which: Option<Resource>, known: set<Id>)
    requires forall l, a :: 0 <= l < |lanes| && a in HeldBy(lanes[l], which) ==> a in SpentOn(lanes[l], which) || a in known
    ensures |known + HeldOn(lanes, which)| <= |known| + SumSpent(lanes, which)
  {
    if lanes == [] {
      assert known + HeldOn(lanes, which) == known;
    } else {
      hide HeldBy, SpentOn;
      var rest, last := lanes[..|lanes| - 1], lanes[|lanes| - 1];
      forall l, a | 0 <= l < |rest| && a in HeldBy(rest[l], which) ensures a in SpentOn(rest[l], which) || a in known {
        assert rest[l] == lanes[l];
      }
      HeldAtMost(rest, which, known);
      var before := known + HeldOn(rest, which);
      UnionIsSmaller(before, SpentOn(last, which));
      assert forall a :: a in HeldBy(lanes[|lanes| - 1], which) ==> a in SpentOn(last, which) || a in known;
      SubsetIsSmaller(known + HeldOn(lanes, which), before + SpentOn(last, which));
    }
  }

  lemma {:induction false} FlightAtMost(taken: seq<Inflight>, pool: Resource)
    ensures |FlightOf(taken, Some(pool))| <= PoolCount(taken, pool)
  {
    if taken == [] {
      assert FlightOf(taken, Some(pool)) == {};
    } else {
      var rest, last := taken[..|taken| - 1], taken[|taken| - 1];
      FlightAtMost(rest, pool);
      assert taken == rest + [last];
      var mine := if last.pool == pool then {last.attempt} else {};
      assert FlightOf(taken, Some(pool)) == FlightOf(rest, Some(pool)) + mine;
      UnionIsSmaller(FlightOf(rest, Some(pool)), mine);
    }
  }

  // ---------------------------------------------------------------- the windows

  // An attempt's entries, in the snapshot and on the lanes, agree on its pool.
  ghost predicate PoolsAgree(b: Balance) {
    && (forall v, w :: v in b.snapshot.inflight && w in b.snapshot.inflight && v.attempt == w.attempt ==> v.pool == w.pool)
    && (forall v, r :: v in b.snapshot.inflight && r in b.listed && v.attempt == r.attempt ==> v.pool == r.pool)
    && (forall r, q :: r in b.listed && q in b.listed && r.attempt == q.attempt ==> r.pool == q.pool)
  }

  // Kept reservations are charged, whatever lane they are on.
  lemma KeptIsKnown(b: Balance, l: nat, a: Id)
    requires Merges(b) && a in GetSet(b.keep, l)
    ensures a in AttemptsIn(b.merged.inflight)
  {
    hide Distinct, ChargedFor, ReservedNodes, GetSet;
    var inflight, rs := b.snapshot.inflight, b.listed;
    assert a in Kept(inflight, rs, |rs|, b.digest, b.count, l);
    if a !in Renewed(inflight, b.digest, b.count, l) {
      var k :| 0 <= k < |rs| && Counts(inflight, rs, k) && rs[k].attempt == a;
      assert a in Known(inflight, rs, |rs|);
    }
  }

  // The pool that an attempt is charged to is the pool of every entry it has.
  lemma ChargedToItsPool(b: Balance, v: Inflight, pool: Resource)
    requires Merges(b) && PoolsAgree(b) && v in b.merged.inflight
    requires (exists w :: w in b.snapshot.inflight && w.attempt == v.attempt && w.pool == pool)
             || (exists r :: r in b.listed && r.attempt == v.attempt && r.pool == pool)
    ensures v.pool == pool
  {
    hide Known, Kept, Renewed, Without, ReservedNodes, Distinct, GetSet, AttemptsIn, Counts;
    var j :| 0 <= j < |b.merged.inflight| && b.merged.inflight[j] == v;
    if j < |b.snapshot.inflight| {
      assert v == b.snapshot.inflight[j] && v in b.snapshot.inflight;
    } else {
      assert ChargedFor(b.snapshot.inflight, b.listed, |b.listed|, v);
      var k :| 0 <= k < |b.listed| && v == Inflight(b.listed[k].attempt, b.listed[k].project, b.listed[k].pool);
      assert b.listed[k] in b.listed;
    }
  }

  // An attempt that is known, with an entry from the pool, is charged to the pool.
  lemma KnownInPool(b: Balance, a: Id, which: Option<Resource>, pool: Resource)
    requires Merges(b) && (which.Some? ==> PoolsAgree(b)) && a in AttemptsIn(b.merged.inflight) && Matches(pool, which)
    requires (exists w :: w in b.snapshot.inflight && w.attempt == a && w.pool == pool) || (exists r :: r in b.listed && r.attempt == a && r.pool == pool)
    ensures a in FlightOf(Distinct(b.merged.inflight), which)
  {
    hide Merges, Distinct;
    DistinctAttempts(b.merged.inflight);
    assert a in AttemptsIn(Distinct(b.merged.inflight));
    var v :| v in Distinct(b.merged.inflight) && v.attempt == a;
    var i :| 0 <= i < |Distinct(b.merged.inflight)| && Distinct(b.merged.inflight)[i] == v;
    if which.Some? { ChargedToItsPool(b, v, pool); }
  }

  // On every lane, what is held is of the epoch or charged.
  lemma HeldIsCharged(b: Balance, l: nat, r: Rebalance, a: Id, which: Option<Resource>)
    requires Merges(b) && |PlanFor(b).lanes| == b.count && l < b.count && OnLane(b, l, r) && (which.Some? ==> PoolsAgree(b))
    requires r.until < |r.states| && a in HeldBy(r.states[r.until].lane, which) && r.states[r.until].lane.meta.epoch == r.lease.fence
    ensures a in SpentOn(r.states[r.until].lane, which) || a in FlightOf(Distinct(b.merged.inflight), which)
  {
    hide Merges, PlanFor, FlightOf, PoolsAgree;
    var lane := PlanFor(b).lanes[l];
    assert InOrder(r) && Applied(r, lane.candidates);
    hide CarriesOut, Applied, InOrder;
    OfEpochOrKept(r, lane.candidates, r.until, a);
    if a !in SpentOn(r.states[r.until].lane, which) {
      KeptIsKnown(b, l, a);
      ListedHere(r, lane.candidates, a);
      assert ListedOn(r)[a] in b.listed;
      KnownInPool(b, a, which, ListedOn(r)[a].pool);
    }
  }

  lemma OpenAt(b: Balance, l: nat, r: Rebalance)
    requires Merges(b) && |PlanFor(b).lanes| == b.count && l < b.count && OnLane(b, l, r)
    ensures r.until < |r.states| && InEpoch(PlanFor(b), l, r.states[r.until].lane) && r.states[r.until].lane.meta.epoch == r.lease.fence
  {
    hide Merges, PlanOf, Spending, Applied, Granted, Credited, QueuesOf, Occurrences, Allotted, ProjectsIn, IsHistory, Permitted;
    PlanAllots(b.sorted, b.merged.inflight, b.digest, b.count, b.window, b.windows, b.epoch, l);
    SpendingUntil(r, PlanFor(b).lanes[l].candidates, r.until);
  }

  function Max(a: int, b: int): int {
    if a < b then b else a
  }

  function WindowOf(windows: map<Resource, int>, pool: Resource): int {
    if pool in windows then windows[pool] else 0
  }

  // However a rebalance, admission and older balancers interleave on the lanes, and at whatever moment of the
  // epoch each lane is looked at: the attempts in flight together with all reservations on all lanes, whatever
  // epoch they come from, number at most the window, or what had been out already; and so for every pool.
  lemma HeldWithinWindows(b: Balance, rs: seq<Rebalance>)
    requires Balanced(b, rs)
    ensures |FlightOf(b.snapshot.inflight, None) + HeldOn(LanesAt(rs), None)| <= Max(b.window, |AttemptsIn(b.merged.inflight)|)
    ensures PoolsAgree(b) ==> forall c ::
              |FlightOf(b.snapshot.inflight, Some(c)) + HeldOn(LanesAt(rs), Some(c))|
              <= Max(WindowOf(b.windows, c), PoolCount(Distinct(b.merged.inflight), c))
  {
    hide IsMerge, PlanFor, OnLane, FlightOf, HeldOn, HeldBy, PoolsAgree, Distinct, SumSpent, InEpoch, RoomOf;
    forall l | 0 <= l < |rs| ensures InEpoch(PlanFor(b), l, LanesAt(rs)[l]) {
      OpenAt(b, l, rs[l]);
    }
    WindowsOfPlan(b, LanesAt(rs));
    HeldOrSpent(b, rs, None);
    DistinctAttempts(b.merged.inflight);
    KnownInAll(b);
    if PoolsAgree(b) {
      forall c ensures |FlightOf(b.snapshot.inflight, Some(c)) + HeldOn(LanesAt(rs), Some(c))|
                       <= Max(WindowOf(b.windows, c), PoolCount(Distinct(b.merged.inflight), c)) {
        HeldOrSpent(b, rs, Some(c));
        FlightAtMost(Distinct(b.merged.inflight), c);
        RoomIs(b.windows, Distinct(b.merged.inflight), c);
      }
    }
  }

  lemma WindowsOfPlan(b: Balance, lanes: seq<Lane>)
    requires Merges(b) && |PlanFor(b).lanes| == b.count == |lanes| && forall l :: 0 <= l < |lanes| ==> InEpoch(PlanFor(b), l, lanes[l])
    ensures SumSpent(lanes, None) <= AtLeastZero(b.window - |Distinct(b.merged.inflight)|)
    ensures forall c :: SumSpent(lanes, Some(c)) <= RoomOf(b.windows, Distinct(b.merged.inflight), c)
  {
    hide PlanOf, InEpoch, Distinct, SumSpent, RoomOf, IsMerge;
    EpochWithinWindows(b.sorted, b.merged.inflight, b.digest, b.count, b.window, b.windows, b.epoch, lanes);
  }

  lemma RoomIs(windows: map<Resource, int>, taken: seq<Inflight>, pool: Resource)
    ensures RoomOf(windows, taken, pool) == if pool in windows then AtLeastZero(windows[pool] - PoolCount(taken, pool)) else 0
  {
  }

  lemma KnownInAll(b: Balance)
    ensures FlightOf(Distinct(b.merged.inflight), None) == AttemptsIn(Distinct(b.merged.inflight))
  {
    hide Distinct;
  }

  // What is out is charged, or spent in the epoch.
  lemma HeldOrSpent(b: Balance, rs: seq<Rebalance>, which: Option<Resource>)
    requires Balanced(b, rs) && (which.Some? ==> PoolsAgree(b))
    ensures |FlightOf(b.snapshot.inflight, which) + HeldOn(LanesAt(rs), which)|
            <= |FlightOf(Distinct(b.merged.inflight), which)| + SumSpent(LanesAt(rs), which)
  {
    hide Merges, PlanFor, OnLane, FlightOf, HeldOn, HeldBy, PoolsAgree, Distinct, SumSpent, InEpoch, SpentOn;
    var known, lanes := FlightOf(Distinct(b.merged.inflight), which), LanesAt(rs);
    forall l, a | 0 <= l < |lanes| && a in HeldBy(lanes[l], which) ensures a in SpentOn(lanes[l], which) || a in known {
      OpenAt(b, l, rs[l]);
      HeldIsCharged(b, l, rs[l], a, which);
    }
    HeldAtMost(lanes, which, known);
    FlightIsCharged(b, which);
    SubsetIsSmaller(FlightOf(b.snapshot.inflight, which) + HeldOn(lanes, which), known + HeldOn(lanes, which));
  }

  lemma FlightIsCharged(b: Balance, which: Option<Resource>)
    requires Merges(b) && (which.Some? ==> PoolsAgree(b))
    ensures FlightOf(b.snapshot.inflight, which) <= FlightOf(Distinct(b.merged.inflight), which)
  {
    forall a | a in FlightOf(b.snapshot.inflight, which) ensures a in FlightOf(Distinct(b.merged.inflight), which) {
      var v :| v in b.snapshot.inflight && Matches(v.pool, which) && v.attempt == a;
      InMerged(b, v);
      KnownInPool(b, a, which, v.pool);
    }
  }

  lemma InMerged(b: Balance, v: Inflight)
    requires Merges(b) && v in b.snapshot.inflight
    ensures v.attempt in AttemptsIn(b.merged.inflight)
  {
    hide Known, Kept, Renewed, Without, ReservedNodes, Distinct, GetSet;
    var j :| 0 <= j < |b.snapshot.inflight| && b.snapshot.inflight[j] == v;
    assert b.merged.inflight[j] == v;
  }

  // ---------------------------------------------------------------- over the whole epoch

  // What was handed out in the epoch and not given back, over all lanes.
  ghost function SumHanded(rs: seq<Rebalance>): int
    requires forall l :: 0 <= l < |rs| ==> rs[l].until < |rs[l].states|
  {
    if rs == [] then 0
    else
      var last := rs[|rs| - 1];
      SumHanded(rs[..|rs| - 1]) + last.states[last.until].spent
  }

  lemma {:induction false} SumHandedAtMost(rs: seq<Rebalance>, admissions: seq<seq<Admission>>)
    requires |rs| == |admissions| && forall l :: 0 <= l < |rs| ==> rs[l].until < |rs[l].states| && rs[l].states[rs[l].until].spent <= |admissions[l]|
    ensures SumHanded(rs) <= LanesUse(admissions, None)
  {
    if rs != [] {
      SumHandedAtMost(rs[..|rs| - 1], admissions[..|admissions| - 1]);
      UseIs(admissions[|admissions| - 1], Builtin);
    }
  }

  // Reservations that expired or were aborted for good count too: what is handed out in an epoch and not given
  // back stays within what the attempts in flight and the older reservations left of the window.
  lemma HandedWithinWindow(b: Balance, rs: seq<Rebalance>)
    requires Balanced(b, rs)
    ensures SumHanded(rs) <= AtLeastZero(b.window - |AttemptsIn(b.merged.inflight)|)
  {
    hide OnLane, InEpoch, PlanOf, Distinct, LanesUse, SumHanded, IsMerge, GrantedTo, CouldBeServed, LevelOf, QueueOf, RoomOf;
    var plan := PlanFor(b);
    forall l | 0 <= l < |rs| ensures rs[l].states[rs[l].until].spent <= |AllAdmissions(plan)[l]| {
      LaneHanded(b, l, rs[l]);
    }
    SumHandedAtMost(rs, AllAdmissions(plan));
    TotalIs(b.sorted, b.merged.inflight, b.digest, b.count, b.window, b.windows, b.epoch);
    PlanIsFair(b.sorted, b.merged.inflight, b.digest, b.count, b.window, b.windows, b.epoch);
    DistinctAttempts(b.merged.inflight);
  }

  lemma LaneHanded(b: Balance, l: nat, r: Rebalance)
    requires Merges(b) && |PlanFor(b).lanes| == b.count && l < b.count && OnLane(b, l, r) && r.until < |r.states|
    ensures r.states[r.until].spent <= |PlanFor(b).lanes[l].admissions|
  {
    hide Merges, PlanOf, Applied, IsHistory, Permitted, Granted;
    HandedWithinGrants(r, PlanFor(b).lanes[l].candidates);
  }
}
