/**
 The lane as the scripts change it: one object whose hashes, list and sorted sets are updated in
 place.  Every script is proved to be the step that module Lanes describes.
 */
module LaneStore {
  import opened Ids
  import opened Json
  import opened Planner
  import opened Reservations
  import L = Lanes
  import S = LaneSafety

  class Store {
    var meta: L.Meta
    var ready: map<Id, seq<Candidate>>
    var active: map<Id, nat>
    var credits: map<Id, nat>
    var grants: seq<Id>
    var reservations: map<Id, Reservation>
    var expiry: map<Id, nat>

    function State(): L.Lane
      reads this
    {
      L.Lane(meta, ready, active, credits, grants, reservations, expiry)
    }

    // Stored queues are never empty and hold candidates of their project; so do reservations.
    ghost predicate Valid()
      reads this
    {
      S.QueuesOk(ready) && forall a :: a in reservations ==> reservations[a].project == reservations[a].candidate.project
    }

    constructor ()
      ensures Valid() && State() == L.EMPTY
    {
      meta, ready, active, credits, grants, reservations, expiry := L.EMPTY.meta, map[], map[], map[], [], map[], map[];
    }

    method Pause(lease: L.Lease, now: nat) returns (applied: bool)
      modifies this`meta, this`credits, this`grants
      ensures (State(), applied) == L.Pause(old(State()), lease, now)
    {
      if meta.fence > lease.fence || lease.expiresAt <= now { return false; }
      meta := L.Meta(lease.owner, lease.token, lease.fence, lease.expiresAt, meta.epoch, Some(true));
      credits, grants := map[], [];
      return true;
    }

    // Drops the reservations that are not kept; confirms and renews those whose attempt is in flight.
    method Prune(keep: set<Id>, renew: set<Id>, until: nat)
      modifies this`reservations, this`expiry
      ensures reservations == L.Pruned(old(reservations), keep, renew)
      ensures expiry == L.PrunedExpiry(old(expiry), old(reservations), keep, renew, until)
      ensures forall a :: a in reservations ==>
                a in old(reservations) && reservations[a].project == old(reservations)[a].project && reservations[a].candidate == old(reservations)[a].candidate
    {
      hide PrunedSo, ExpirySo;
      var rest := reservations.Keys;
      ghost var rs, ex := reservations, expiry;
      PruneStarts(rs, ex, keep, renew, until);
      while rest != {}
        invariant rest <= rs.Keys
        invariant reservations == PrunedSo(rs, rest, keep, renew)
        invariant expiry == ExpirySo(ex, rs, rest, keep, renew, until)
        decreases |rest|
      {
        var a :| a in rest;
        PruneReservation(rs, rest, keep, renew, a);
        PruneExpiry(ex, rs, rest, keep, renew, until, a);
        if a in keep {
          if a in renew {
            reservations := reservations[a := reservations[a].(confirmed := true)];
            expiry := expiry[a := until];
          }
        } else {
          reservations := reservations - {a};
          expiry := expiry - {a};
        }
        rest := rest - {a};
      }
      PruneEnds(rs, ex, keep, renew, until);
    }

    // Replaces everything but the reservations to keep by the candidates, grouped by project.
    method Rebuild(lease: L.Lease, candidates: seq<Candidate>, keep: set<Id>, renew: set<Id>, activeTTL: nat, ttl: nat, now: nat) returns (applied: bool)
      requires Valid()
      modifies this
      ensures Valid() && (State(), applied) == L.Rebuild(old(State()), lease, candidates, keep, renew, activeTTL, ttl, now)
    {
      hide L.Pruned, L.PrunedExpiry, QueuesOf;
      if !L.Holds(State(), lease, now) || meta.paused != Some(true) { return false; }
      Prune(keep, renew, now + ttl);
      var queues := BuildQueues(candidates);
      S.GroupsOk(candidates);
      QueuesDomain(candidates);
      ready, active, credits, grants := queues, map p | p in queues :: now + activeTTL, map[], [];
      assert active == map p | p in ProjectsOf(candidates) :: now + activeTTL;
      return true;
    }

    method GrantCredit(lease: L.Lease, projects: seq<Id>, now: nat) returns (applied: bool)
      modifies this`credits, this`grants
      ensures (State(), applied) == L.GrantCredit(old(State()), lease, projects, now)
    {
      if !L.Holds(State(), lease, now) || meta.paused != Some(true) { return false; }
      for i := 0 to |projects|
        invariant credits == L.Credited(old(credits), projects[..i]) && grants == old(grants) + projects[..i]
      {
        assert projects[..i + 1][..i] == projects[..i];
        credits := credits[projects[i] := Get(credits, projects[i]) + 1];
        grants := grants + [projects[i]];
      }
      assert projects[..|projects|] == projects;
      return true;
    }

    method Activate(lease: L.Lease, epoch: nat, now: nat) returns (applied: bool)
      modifies this`meta
      ensures (State(), applied) == L.Activate(old(State()), lease, epoch, now)
    {
      if !L.Holds(State(), lease, now) { return false; }
      meta := meta.(epoch := epoch, paused := Some(false));
      return true;
    }

    // Moves the first candidate of a project from its queue to a reservation, for one credit.
    method Serve(p: Id, a: Id, lane: nat, until: nat) returns (reservation: Reservation)
      requires Valid() && p in ready && Get(credits, p) > 0
      modifies this
      ensures Valid() && (State(), reservation) == L.ReserveFor(old(State()), p, a, lane, until)
    {
      S.PopKeepsQueues(ready, p);
      var c, rest := ready[p][0], ready[p][1..];
      credits := credits[p := Get(credits, p) - 1];
      reservation := Reservation(a, c.project, lane, c.pool, c, false, meta.epoch);
      reservations := reservations[a := reservation];
      expiry := expiry[a := until];
      if rest == [] {
        ready, active := ready - {p}, active - {p};
      } else {
        ready := ready[p := rest];
      }
    }

    // Serves the first grant that still can be; those before it are dropped.
    method ReserveNext(a: Id, lane: nat, ttl: nat, now: nat) returns (r: L.Reserved)
      requires Valid()
      modifies this
      ensures Valid() && (State(), r) == L.Reserve(old(State()), a, lane, ttl, now)
    {
      hide L.Servable, L.ReserveFor, L.FirstServable;
      if meta.paused != Some(false) || meta.expiresAt <= now { return L.Paused; }
      if a in reservations {
        expiry := expiry[a := now + ttl];
        return L.Got(reservations[a]);
      }
      r := PopGrants(a, lane, ttl, now);
    }

    // Pops grants until one can be served.
    method PopGrants(a: Id, lane: nat, ttl: nat, now: nat) returns (r: L.Reserved)
      requires Valid() && meta.paused == Some(false) && meta.expiresAt > now && a !in reservations
      modifies this
      ensures Valid() && (State(), r) == L.Reserve(old(State()), a, lane, ttl, now)
    {
      hide L.Servable, L.ReserveFor, L.Reserve, L.FirstServable, S.QueuesOk;
      ghost var before, k := State(), 0;
      while grants != []
        invariant 0 <= k <= |before.grants| && State() == before.(grants := before.grants[k..])
        invariant forall i :: 0 <= i < k ==> !L.Servable(before, before.grants[i], now)
        decreases |grants|
      {
        var p := grants[0];
        grants := grants[1..];
        ServableIs(before, p, now);
        if Get(credits, p) > 0 && Get(active, p) >= now && p in ready {
          ReserveFinds(before, a, lane, ttl, now, k);
          var reservation := Serve(p, a, lane, now + ttl);
          return L.Got(reservation);
        }
        k := k + 1;
      }
      ReserveMisses(before, a, lane, ttl, now);
      return L.Nothing;
    }

    method Abort(a: Id, restore: bool)
      requires Valid()
      modifies this
      ensures Valid() && State() == L.Abort(old(State()), a, restore)
    {
      if a !in reservations {
        expiry := expiry - {a};
        return;
      }
      var r := reservations[a];
      reservations, expiry := reservations - {a}, expiry - {a};
      if restore && meta.paused == Some(false) && meta.epoch == r.epoch {
        S.PushKeepsQueues(ready, r.candidate);
        var queue := if r.project in ready then ready[r.project] else [];
        ready := ready[r.project := [r.candidate] + queue];
        credits := credits[r.project := Get(credits, r.project) + 1];
        grants := [r.project] + grants;
      }
    }

    method Confirm(a: Id, ttl: nat, now: nat) returns (found: bool)
      requires Valid()
      modifies this`reservations, this`expiry
      ensures Valid() && State() == L.Confirm(old(State()), a, ttl, now) && found == (a in old(reservations))
    {
      if a !in reservations { return false; }
      reservations := reservations[a := reservations[a].(confirmed := true)];
      expiry := expiry[a := now + ttl];
      return true;
    }

    // Forgets the reservations whose time has come and lists the others.
    method ListReservations(now: nat) returns (live: map<Id, Reservation>)
      requires Valid()
      modifies this`reservations, this`expiry
      ensures Valid() && State() == L.Expire(old(State()), now) && live == reservations
    {
      var gone := set a | a in expiry && expiry[a] <= now;
      var rest := gone;
      while rest != {}
        invariant rest <= gone && reservations == old(reservations) - (gone - rest) && expiry == old(expiry) - (gone - rest)
        decreases |rest|
      {
        var a :| a in rest;
        reservations, expiry := reservations - {a}, expiry - {a};
        rest := rest - {a};
      }
      assert gone - rest == gone;
      live := reservations;
    }
  }

  lemma ServableIs(s: L.Lane, p: Id, now: nat)
    ensures L.Servable(s, p, now) <==> Get(s.credits, p) > 0 && Get(s.active, p) >= now && p in s.ready
  {
  }

  lemma ReserveFinds(s: L.Lane, a: Id, lane: nat, ttl: nat, now: nat, k: nat)
    requires S.QueuesOk(s.ready) && s.meta.paused == Some(false) && s.meta.expiresAt > now && a !in s.reservations
    requires k < |s.grants| && (forall i :: 0 <= i < k ==> !L.Servable(s, s.grants[i], now)) && L.Servable(s, s.grants[k], now)
    ensures var (t, r) := L.ReserveFor(s.(grants := s.grants[k + 1..]), s.grants[k], a, lane, now + ttl);
            L.Reserve(s, a, lane, ttl, now) == (t, L.Got(r))
  {
    FirstIs(s, now, k);
  }

  lemma ReserveMisses(s: L.Lane, a: Id, lane: nat, ttl: nat, now: nat)
    requires S.QueuesOk(s.ready) && s.meta.paused == Some(false) && s.meta.expiresAt > now && a !in s.reservations
    requires forall i :: 0 <= i < |s.grants| ==> !L.Servable(s, s.grants[i], now)
    ensures L.Reserve(s, a, lane, ttl, now) == (s.(grants := []), L.Nothing)
  {
    FirstIs(s, now, |s.grants|);
  }

  lemma {:induction false} FirstIs(s: L.Lane, now: nat, k: nat)
    requires k <= |s.grants| && (forall i :: 0 <= i < k ==> !L.Servable(s, s.grants[i], now))
    requires k < |s.grants| ==> L.Servable(s, s.grants[k], now)
    ensures L.FirstServable(s, now) == k
  {
  }

  // The reservations when those in rest are still to be looked at.
  function PrunedSo(rs: map<Id, Reservation>, rest: set<Id>, keep: set<Id>, renew: set<Id>): map<Id, Reservation> {
    map a | a in rs && (a in rest || a in keep) :: if a in rest || a !in renew then rs[a] else rs[a].(confirmed := true)
  }

  function ExpirySo(ex: map<Id, nat>, rs: map<Id, Reservation>, rest: set<Id>, keep: set<Id>, renew: set<Id>, until: nat): map<Id, nat> {
    map a | a in ex.Keys + ((rs.Keys - rest) * keep * renew) && (a in rs && a !in rest ==> a in keep)
      :: if a in rs && a !in rest && a in renew then until else ex[a]
  }

  lemma PruneStarts(rs: map<Id, Reservation>, ex: map<Id, nat>, keep: set<Id>, renew: set<Id>, until: nat)
    ensures PrunedSo(rs, rs.Keys, keep, renew) == rs && ExpirySo(ex, rs, rs.Keys, keep, renew, until) == ex
  {
  }

  lemma PruneEnds(rs: map<Id, Reservation>, ex: map<Id, nat>, keep: set<Id>, renew: set<Id>, until: nat)
    ensures PrunedSo(rs, {}, keep, renew) == L.Pruned(rs, keep, renew)
    ensures ExpirySo(ex, rs, {}, keep, renew, until) == L.PrunedExpiry(ex, rs, keep, renew, until)
  {
  }

  lemma PruneReservation(rs: map<Id, Reservation>, rest: set<Id>, keep: set<Id>, renew: set<Id>, a: Id)
    requires a in rest && rest <= rs.Keys
    ensures var now, next := PrunedSo(rs, rest, keep, renew), PrunedSo(rs, rest - {a}, keep, renew);
            a in now && next == if a !in keep then now - {a} else if a in renew then now[a := now[a].(confirmed := true)] else now
  {
  }

  lemma PruneExpiry(ex: map<Id, nat>, rs: map<Id, Reservation>, rest: set<Id>, keep: set<Id>, renew: set<Id>, until: nat, a: Id)
    requires a in rest && rest <= rs.Keys
    ensures var now, next := ExpirySo(ex, rs, rest, keep, renew, until), ExpirySo(ex, rs, rest - {a}, keep, renew, until);
            next == if a !in keep then now - {a} else if a in renew then now[a := until] else now
  {
  }
}
