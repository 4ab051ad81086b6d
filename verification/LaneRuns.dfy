/**
 A whole rebalance of the lanes, interleaved with everything else that may happen to them: admission
 steps at any time, and any step of a balancer whose lease is older.
 */
module LaneRuns {
  import opened Ids
  import opened Json
  import opened Planner
  import opened Reservations
  import opened Lanes
  import opened LaneSafety
  import opened LaneEpochs

  // Steps that take no lease.
  predicate Admits(step: Step) {
    step.DoReserve? || step.DoAbort? || step.DoConfirm? || step.DoExpire?
  }

  // What others may do meanwhile.
  predicate Foreign(step: Step, fence: nat) {
    Admits(step) || step.lease.fence < fence
  }

  // The fence refuses every step under an older lease.
  lemma OlderIsRefused(t: Tracked, step: Step, now: nat)
    requires Safe(t) && !Admits(step) && step.lease.fence < t.lane.meta.fence
    ensures Take(t, step, now) == t
  {
    hide Covered, QueuesOk, Total, Credited, Pruned, PrunedExpiry, QueuesOf;
  }

  lemma ClosedStays(t: Tracked, step: Step, now: nat, lease: Lease)
    requires Safe(t) && ClosedFor(t.lane, lease) && Admits(step)
    ensures ClosedFor(Take(t, step, now).lane, lease)
  {
    hide Covered, QueuesOk, Total, Credited;
    var s, u := t.lane, Take(t, step, now).lane;
    forall a | a in u.reservations ensures u.reservations[a].epoch != lease.fence {
      assert a !in MadeIn(s.reservations, lease.fence);
    }
  }

  lemma MetaStays(t: Tracked, step: Step, now: nat)
    requires Safe(t) && Admits(step)
    ensures Take(t, step, now).lane.meta == t.lane.meta
  {
    hide Safe, FirstServable;
  }

  // ---------------------------------------------------------------- one lane

  // The history of one lane up to state until, with the steps at which a balancer paused it, listed its
  // reservations, rebuilt it and opened it under its lease.
  datatype Rebalance = Rebalance(
    steps: seq<(Step, nat)>, states: seq<Tracked>, lease: Lease, pause: nat, list: nat, rebuild: nat, activate: nat, until: nat)

  ghost predicate InOrder(r: Rebalance) {
    && IsHistory(r.steps, r.states) && |r.states| == |r.steps| + 1 && r.pause < r.list < r.rebuild < r.activate < r.until < |r.states|
    && r.lease.fence > r.states[r.pause].lane.meta.fence
    && r.steps[r.pause].0 == DoPause(r.lease) && r.steps[r.list].0 == DoExpire && r.steps[r.activate].0 == DoActivate(r.lease)
    && forall k :: r.pause < k < r.until && k != r.rebuild && k != r.activate ==> Permitted(r, k)
  }

  // Others' steps; and, between rebuilding and opening the lane, the balancer's own grants.
  ghost predicate Permitted(r: Rebalance, k: nat)
    requires k < |r.steps|
  {
    Foreign(r.steps[k].0, r.lease.fence) || (r.rebuild < k < r.activate && r.steps[k].0.DoGrant? && r.steps[k].0.lease == r.lease)
  }

  // The balancer went on only after each of its steps was applied.
  ghost predicate Applied(r: Rebalance, candidates: seq<Candidate>)
    requires InOrder(r)
  {
    var step := r.steps[r.rebuild].0;
    && Pause(r.states[r.pause].lane, r.lease, r.steps[r.pause].1).1
    && step.DoRebuild? && step.lease == r.lease && step.candidates == candidates
    && Rebuild(r.states[r.rebuild].lane, r.lease, candidates, step.keep, step.renew, step.activeTTL, step.ttl, r.steps[r.rebuild].1).1
    && Activate(r.states[r.activate].lane, r.lease, r.lease.fence, r.steps[r.activate].1).1
  }

  // The projects granted credit by the balancer before step k.
  ghost function Granted(r: Rebalance, k: nat): seq<Id>
    requires InOrder(r) && r.rebuild < k <= r.activate
  {
    if k == r.rebuild + 1 then []
    else
      var step, now := r.steps[k - 1].0, r.steps[k - 1].1;
      Granted(r, k - 1) + if step.DoGrant? && GrantCredit(r.states[k - 1].lane, step.lease, step.projects, now).1 then step.projects else []
  }

  lemma NextState(r: Rebalance, k: nat)
    requires InOrder(r) && k < r.until
    ensures Safe(r.states[k]) && r.states[k + 1] == Take(r.states[k], r.steps[k].0, r.steps[k].1)
  {
    hide Safe, Take, Permitted;
    SafeAlways(r.steps, r.states, k);
    assert TakesTo(r.states[k], r.steps[k].0, r.steps[k].1, r.states[k + 1]);
  }

  // From the pause to the rebuild the lane is closed, with nothing reserved under the new fence.
  lemma {:induction false} ClosedUntilRebuilt(r: Rebalance, candidates: seq<Candidate>, k: nat)
    requires InOrder(r) && Applied(r, candidates) && r.pause < k <= r.rebuild
    ensures ClosedFor(r.states[k].lane, r.lease)
    decreases k
  {
    hide IsHistory, Safe, Rebuild, Activate, ClosedFor, Foreign;
    NextState(r, k - 1);
    if k == r.pause + 1 {
      PauseCloses(r.states[r.pause], r.lease, r.steps[r.pause].1);
    } else {
      ClosedUntilRebuilt(r, candidates, k - 1);
      hide Take;
      assert Permitted(r, k - 1);
      ForeignKeepsClosed(r.states[k - 1], r.steps[k - 1].0, r.steps[k - 1].1, r.lease);
    }
  }

  lemma ForeignKeepsClosed(t: Tracked, step: Step, now: nat, lease: Lease)
    requires Safe(t) && ClosedFor(t.lane, lease) && Foreign(step, lease.fence)
    ensures ClosedFor(Take(t, step, now).lane, lease)
  {
    hide Safe, Take, MadeIn;
    if Admits(step) { ClosedStays(t, step, now, lease); } else { OlderIsRefused(t, step, now); }
  }

  lemma ForeignKeepsPrepared(t: Tracked, step: Step, now: nat, lease: Lease, whole: map<Id, seq<Candidate>>, granted: seq<Id>)
    requires Safe(t) && Prepared(t.lane, lease, whole, granted) && Foreign(step, lease.fence)
    ensures Prepared(Take(t, step, now).lane, lease, whole, granted)
  {
    hide Safe, Take, MadeIn, Credited;
    if Admits(step) { PreparedStays(t, step, now, lease, whole, granted); } else { OlderIsRefused(t, step, now); }
  }

  // From the rebuild on it holds the candidates and exactly the credit granted so far.
  lemma {:induction false} PreparedUntilOpened(r: Rebalance, candidates: seq<Candidate>, k: nat)
    requires InOrder(r) && Applied(r, candidates) && r.rebuild < k <= r.activate
    ensures Prepared(r.states[k].lane, r.lease, QueuesOf(candidates), Granted(r, k))
    decreases k
  {
    hide IsHistory, Safe, Pause, Activate, Prepared, Foreign, QueuesOf, Rebuild, GrantCredit;
    NextState(r, k - 1);
    var t, step, now := r.states[k - 1], r.steps[k - 1].0, r.steps[k - 1].1;
    if k == r.rebuild + 1 {
      ClosedUntilRebuilt(r, candidates, r.rebuild);
      RebuildPrepares(t.lane, r.lease, candidates, step.keep, step.renew, step.activeTTL, step.ttl, now);
    } else {
      PreparedUntilOpened(r, candidates, k - 1);
      assert Permitted(r, k - 1);
      PreparedStep(t, step, now, r.lease, QueuesOf(candidates), Granted(r, k - 1));
    }
  }

  lemma PreparedStep(t: Tracked, step: Step, now: nat, lease: Lease, whole: map<Id, seq<Candidate>>, granted: seq<Id>)
    requires Safe(t) && Prepared(t.lane, lease, whole, granted)
    requires Foreign(step, lease.fence) || (step.DoGrant? && step.lease == lease)
    ensures var more := if step.DoGrant? && GrantCredit(t.lane, step.lease, step.projects, now).1 then step.projects else [];
            Prepared(Take(t, step, now).lane, lease, whole, granted + more)
  {
    hide Safe, MadeIn, Credited;
    assert granted + [] == granted;
    if Foreign(step, lease.fence) {
      hide Take;
      ForeignKeepsPrepared(t, step, now, lease, whole, granted);
    } else if GrantCredit(t.lane, step.lease, step.projects, now).1 {
      GrantPrepares(t.lane, lease, whole, granted, step.projects, now);
    }
  }

  // Once open, the lane spends what it was granted, until the next balancer takes over.
  lemma {:induction false} SpendingUntil(r: Rebalance, candidates: seq<Candidate>, k: nat)
    requires InOrder(r) && Applied(r, candidates) && r.activate < k <= r.until
    requires forall p :: Occurrences(Granted(r, r.activate), p) <= |ReadyOf(QueuesOf(candidates), p)|
    ensures Spending(r.states[k].lane, QueuesOf(candidates), Credited(map[], Granted(r, r.activate)))
    ensures r.states[k].lane.meta.paused == Some(false) && r.states[k].lane.meta.fence == r.lease.fence == r.states[k].lane.meta.epoch
    decreases k
  {
    hide IsHistory, Safe, Pause, Foreign, QueuesOf, Rebuild, Spending, Credited, Granted, Occurrences;
    NextState(r, k - 1);
    var t, step, now := r.states[k - 1], r.steps[k - 1].0, r.steps[k - 1].1;
    if k == r.activate + 1 {
      PreparedUntilOpened(r, candidates, r.activate);
      ActivateOpens(t.lane, r.lease, QueuesOf(candidates), Granted(r, r.activate), now);
    } else {
      SpendingUntil(r, candidates, k - 1);
      hide Take;
      assert Permitted(r, k - 1);
      ForeignKeepsSpending(t, step, now, r.lease.fence, QueuesOf(candidates), Credited(map[], Granted(r, r.activate)));
    }
  }

  lemma ForeignKeepsSpending(t: Tracked, step: Step, now: nat, fence: nat, whole: map<Id, seq<Candidate>>, credits: map<Id, nat>)
    requires Safe(t) && t.lane.meta.paused == Some(false) && Spending(t.lane, whole, credits)
    requires t.lane.meta.fence == fence && Foreign(step, fence)
    ensures Spending(Take(t, step, now).lane, whole, credits) && Take(t, step, now).lane.meta == t.lane.meta
  {
    hide Safe, Take, Spending;
    if Admits(step) {
      MetaStays(t, step, now);
      SpendingKeeps(t, step, now, whole, credits);
    } else {
      OlderIsRefused(t, step, now);
    }
  }

  // ---------------------------------------------------------------- what is handed out

  // The credit on the books of the lane is what the balancer granted.
  lemma {:induction false} GrantedCounted(r: Rebalance, candidates: seq<Candidate>, k: nat)
    requires InOrder(r) && Applied(r, candidates) && r.pause < k <= r.until
    ensures r.states[k].lane.meta.fence == r.lease.fence && r.states[k].index == r.states[r.pause].index
    ensures r.states[k].granted == if k <= r.rebuild then 0 else |Granted(r, if k <= r.activate then k else r.activate)|
    decreases k
  {
    hide IsHistory, Safe, Foreign, Permitted;
    NextState(r, k - 1);
    var t, step, now := r.states[k - 1], r.steps[k - 1].0, r.steps[k - 1].1;
    if k > r.pause + 1 {
      GrantedCounted(r, candidates, k - 1);
      if k - 1 != r.rebuild && k - 1 != r.activate {
        hide Take;
        PermittedCounts(r, k - 1);
      }
    }
  }

  lemma PermittedCounts(r: Rebalance, k: nat)
    requires InOrder(r) && r.pause < k < r.until && k != r.rebuild && k != r.activate && Safe(r.states[k])
    requires r.states[k].lane.meta.fence == r.lease.fence
    ensures var t, step, now := r.states[k], r.steps[k].0, r.steps[k].1;
            var u := Take(t, step, now);
            && u.lane.meta.fence == t.lane.meta.fence && u.index == t.index
            && u.granted == t.granted + (if r.rebuild < k < r.activate && step.DoGrant? && GrantCredit(t.lane, step.lease, step.projects, now).1 then |step.projects| else 0)
  {
    assert Permitted(r, k);
    var t, step, now := r.states[k], r.steps[k].0, r.steps[k].1;
    hide InOrder, Safe, Credited;
    if Admits(step) {
      MetaStays(t, step, now);
    } else if step.lease.fence < r.lease.fence {
      OlderIsRefused(t, step, now);
    }
  }

  // Whatever was given back, aborted for good or forgotten: what was handed out in the epoch and not given
  // back is within what was granted.
  lemma HandedWithinGrants(r: Rebalance, candidates: seq<Candidate>)
    requires InOrder(r) && Applied(r, candidates)
    ensures r.states[r.until].spent <= |Granted(r, r.activate)|
    ensures |MadeIn(r.states[r.until].lane.reservations, r.lease.fence)| <= r.states[r.until].spent
  {
    GrantedCounted(r, candidates, r.until);
    SafeAlways(r.steps, r.states, r.until);
  }

  // ---------------------------------------------------------------- an undisturbed balancer

  // A history goes on with any step.
  lemma StepTaken(steps: seq<(Step, nat)>, states: seq<Tracked>, step: Step, now: nat)
    requires IsHistory(steps, states)
    ensures Safe(states[|steps|])
    ensures IsHistory(steps + [(step, now)], states + [Take(states[|steps|], step, now)])
  {
    SafeAlways(steps, states, |steps|);
    hide Safe, Take;
    var more, after := steps + [(step, now)], states + [Take(states[|steps|], step, now)];
    forall i | 0 <= i < |more| ensures TakesTo(after[i], more[i].0, more[i].1, after[i + 1]) {
      if i < |steps| { assert TakesTo(states[i], steps[i].0, steps[i].1, states[i + 1]); }
    }
  }

  // Whatever happened on a lane before, a balancer with a newer lease that has not expired carries out its
  // plan there.
  lemma PlanCarriedOut(steps: seq<(Step, nat)>, states: seq<Tracked>, lease: Lease, lane: LanePlan,
                       keep: set<Id>, renew: set<Id>, activeTTL: nat, ttl: nat, now: nat) returns (r: Rebalance)
    requires IsHistory(steps, states) && lease.fence > states[|steps|].lane.meta.fence && lease.expiresAt > now
    ensures CarriesOut(r, lane) && steps <= r.steps && states <= r.states && r.pause == |steps| && r.lease == lease
    ensures r.steps[r.rebuild].0 == DoRebuild(lease, lane.candidates, keep, renew, activeTTL, ttl)
    ensures r.states[r.list + 1].lane.reservations == Expire(states[|steps|].lane, now).reservations
  {
    hide IsHistory, Safe, ProjectsIn, Take;
    LengthsAgree(steps, states);
    var n := |steps|;
    var taken := [DoPause(lease), DoExpire, DoRebuild(lease, lane.candidates, keep, renew, activeTTL, ttl),
                  DoGrant(lease, ProjectsIn(lane.admissions)), DoActivate(lease)];
    var more, after := StepsTaken(steps, states, taken, now, 5);
    r := Rebalance(more, after, lease, n, n + 1, n + 2, n + 4, n + 5);
    assert r.states[n] == states[n];
    assert StepIs(more, after, n, taken, now, 0) && StepIs(more, after, n, taken, now, 1) && StepIs(more, after, n, taken, now, 2);
    assert StepIs(more, after, n, taken, now, 3) && StepIs(more, after, n, taken, now, 4);
    assert Permitted(r, n + 1) && Permitted(r, n + 3);
    assert InOrder(r);
    BalancerApplied(after[n], after[n + 1], after[n + 2], after[n + 3], after[n + 4], lease, taken[2], ProjectsIn(lane.admissions), now);
    hide Rebuild, Pause, Activate, GrantCredit;
    assert Granted(r, n + 3) == [];
    assert Granted(r, n + 4) == Granted(r, n + 3) + ProjectsIn(lane.admissions);
  }

  ghost predicate Next(states: seq<Tracked>, k: nat, step: Step, now: nat) {
    k + 1 < |states| && Safe(states[k]) && states[k + 1] == Take(states[k], step, now)
  }

  ghost predicate StepIs(steps: seq<(Step, nat)>, states: seq<Tracked>, n: nat, taken: seq<Step>, now: nat, i: nat) {
    i < |taken| && n + i < |steps| && steps[n + i] == (taken[i], now) && Next(states, n + i, taken[i], now)
  }

  // A history goes on with any number of steps.
  lemma {:induction false} StepsTaken(steps: seq<(Step, nat)>, states: seq<Tracked>, taken: seq<Step>, now: nat, k: nat)
    returns (more: seq<(Step, nat)>, after: seq<Tracked>)
    requires IsHistory(steps, states) && k <= |taken|
    ensures IsHistory(more, after) && |more| == |steps| + k && |after| == |more| + 1 && steps <= more && states <= after
    ensures forall i :: 0 <= i < k ==> StepIs(more, after, |steps|, taken, now, i)
    decreases k
  {
    hide IsHistory, Safe, Take;
    LengthsAgree(steps, states);
    if k == 0 {
      more, after := steps, states;
    } else {
      var m, a := StepsTaken(steps, states, taken, now, k - 1);
      StepTaken(m, a, taken[k - 1], now);
      more, after := m + [(taken[k - 1], now)], a + [Take(a[|m|], taken[k - 1], now)];
      forall i | 0 <= i < k ensures StepIs(more, after, |steps|, taken, now, i) {
        if i < k - 1 { assert StepIs(m, a, |steps|, taken, now, i); }
      }
    }
  }

  // Nothing stands in the way of the balancer's steps.
  lemma BalancerApplied(t: Tracked, t1: Tracked, t2: Tracked, t3: Tracked, t4: Tracked, lease: Lease, rebuild: Step, projects: seq<Id>, now: nat)
    requires lease.fence > t.lane.meta.fence && lease.expiresAt > now && rebuild.DoRebuild? && rebuild.lease == lease
    requires Safe(t) && t1 == Take(t, DoPause(lease), now) && Safe(t1) && t2 == Take(t1, DoExpire, now)
    requires Safe(t2) && t3 == Take(t2, rebuild, now) && Safe(t3) && t4 == Take(t3, DoGrant(lease, projects), now)
    ensures Pause(t.lane, lease, now).1 && GrantCredit(t3.lane, lease, projects, now).1 && Activate(t4.lane, lease, lease.fence, now).1
    ensures Rebuild(t2.lane, lease, rebuild.candidates, rebuild.keep, rebuild.renew, rebuild.activeTTL, rebuild.ttl, now).1
    ensures t2.lane.reservations == Expire(t.lane, now).reservations
  {
    hide Safe, QueuesOf, Pruned, PrunedExpiry, Credited;
  }

  lemma LengthsAgree(steps: seq<(Step, nat)>, states: seq<Tracked>)
    requires IsHistory(steps, states)
    ensures |states| == |steps| + 1
  {
  }

  // ---------------------------------------------------------------- all lanes

  // The history of lane l carries out the plan: it was rebuilt with the candidates of the plan and granted
  // its admissions, in one or more batches.
  ghost predicate CarriesOut(r: Rebalance, lane: LanePlan) {
    InOrder(r) && Applied(r, lane.candidates) && Granted(r, r.activate) == ProjectsIn(lane.admissions)
  }

  function LanesAt(rs: seq<Rebalance>): (lanes: seq<Lane>)
    requires forall i :: 0 <= i < |rs| ==> rs[i].until < |rs[i].states|
    ensures |lanes| == |rs| && forall i :: 0 <= i < |rs| ==> lanes[i] == rs[i].states[rs[i].until].lane
  {
    seq(|rs|, i requires 0 <= i < |rs| => rs[i].states[rs[i].until].lane)
  }

  // However the steps of a rebalance, of admission and of older balancers interleave on the lanes, and at
  // whatever moment of the epoch each lane is looked at: the reservations of the epoch fit into what the
  // attempts in flight leave of the global window and of every pool window.
  lemma RebalanceWithinWindows(sorted: seq<Candidate>, inflight: seq<Inflight>, digest: Id -> nat, count: nat, window: nat,
                               windows: map<Resource, int>, epoch: nat, rs: seq<Rebalance>)
    requires count > 0 && epoch > 0 && |rs| == count && forall l :: 0 <= l < count ==> rs[l].until < |rs[l].states|
    requires |PlanOf(sorted, inflight, digest, count, window, windows, epoch).lanes| == count
    requires forall l :: 0 <= l < count ==> CarriesOut(rs[l], PlanOf(sorted, inflight, digest, count, window, windows, epoch).lanes[l])
    ensures SumSpent(LanesAt(rs), None) <= AtLeastZero(window - |Distinct(inflight)|)
    ensures forall c :: SumSpent(LanesAt(rs), Some(c)) <= RoomOf(windows, Distinct(inflight), c)
  {
    var plan := PlanOf(sorted, inflight, digest, count, window, windows, epoch);
    hide PlanOf, SumSpent, Distinct, RoomOf, Spending, Applied, Granted, Credited, QueuesOf, Occurrences, Allotted, ProjectsIn, IsHistory;
    forall l | 0 <= l < count ensures InEpoch(plan, l, LanesAt(rs)[l]) {
      PlanAllots(sorted, inflight, digest, count, window, windows, epoch, l);
      SpendingUntil(rs[l], plan.lanes[l].candidates, rs[l].until);
    }
    EpochWithinWindows(sorted, inflight, digest, count, window, windows, epoch, LanesAt(rs));
  }
}
