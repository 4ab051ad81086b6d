/**
 One scheduling lane: the hashes, list and sorted sets it keeps, and each script as one atomic
 step over them.
 */
module Lanes {
  import opened Ids
  import opened Json
  import opened Planner
  import opened Reservations

  // The hash of a lane; paused is unset until the lane is paused for the first time.
  datatype Meta = Meta(owner: Id, token: Id, fence: nat, expiresAt: nat, epoch: nat, paused: Option<bool>)

  datatype Lane = Lane(
    meta: Meta,
    ready: map<Id, seq<Candidate>>,
    active: map<Id, nat>,
    credits: map<Id, nat>,
    grants: seq<Id>,
    reservations: map<Id, Reservation>,
    expiry: map<Id, nat>)

  datatype Lease = Lease(owner: Id, token: Id, fence: nat, expiresAt: nat)

  const EMPTY := Lane(Meta("", "", 0, 0, 0, None), map[], map[], map[], [], map[], map[])

  predicate Holds(s: Lane, lease: Lease, now: nat) {
    s.meta.owner == lease.owner && s.meta.token == lease.token && s.meta.fence == lease.fence && s.meta.expiresAt > now
  }

  // ---------------------------------------------------------------- the scripts

  // Closes the lane for the holder of a lease that is at least as new as the last one.
  function Pause(s: Lane, lease: Lease, now: nat): (Lane, bool) {
    if s.meta.fence > lease.fence || lease.expiresAt <= now then (s, false)
    else (s.(meta := Meta(lease.owner, lease.token, lease.fence, lease.expiresAt, s.meta.epoch, Some(true)), credits := map[], grants := []), true)
  }

  // The reservations to keep, those of attempts in flight confirmed and renewed.
  function Pruned(rs: map<Id, Reservation>, keep: set<Id>, renew: set<Id>): map<Id, Reservation> {
    map a | a in rs && a in keep :: if a in renew then rs[a].(confirmed := true) else rs[a]
  }

  function PrunedExpiry(expiry: map<Id, nat>, rs: map<Id, Reservation>, keep: set<Id>, renew: set<Id>, until: nat): map<Id, nat> {
    map a | a in expiry.Keys + (rs.Keys * keep * renew) && (a in rs ==> a in keep) :: if a in rs && a in renew then until else expiry[a]
  }

  // Fills a paused lane with the candidates, grouped by project.
  function Rebuild(s: Lane, lease: Lease, candidates: seq<Candidate>, keep: set<Id>, renew: set<Id>,
                   activeTTL: nat, reservationTTL: nat, now: nat): (Lane, bool)
  {
    if !Holds(s, lease, now) || s.meta.paused != Some(true) then (s, false)
    else
      (Lane(s.meta, QueuesOf(candidates), map p | p in ProjectsOf(candidates) :: now + activeTTL, map[], [],
            Pruned(s.reservations, keep, renew), PrunedExpiry(s.expiry, s.reservations, keep, renew, now + reservationTTL)), true)
  }

  function Credited(credits: map<Id, nat>, projects: seq<Id>): map<Id, nat> {
    if projects == [] then credits
    else
      var last, rest := projects[|projects| - 1], Credited(credits, projects[..|projects| - 1]);
      rest[last := Get(rest, last) + 1]
  }

  function GrantCredit(s: Lane, lease: Lease, projects: seq<Id>, now: nat): (Lane, bool) {
    if !Holds(s, lease, now) || s.meta.paused != Some(true) then (s, false)
    else (s.(credits := Credited(s.credits, projects), grants := s.grants + projects), true)
  }

  // Opens the lane for the epoch.
  function Activate(s: Lane, lease: Lease, epoch: nat, now: nat): (Lane, bool) {
    if !Holds(s, lease, now) then (s, false)
    else (s.(meta := s.meta.(epoch := epoch, paused := Some(false))), true)
  }

  datatype Reserved = Paused | Nothing | Got(reservation: Reservation)

  predicate Servable(s: Lane, p: Id, now: nat) {
    Get(s.credits, p) > 0 && Get(s.active, p) >= now && p in s.ready
  }

  // The first grant that can be served; all before it are dropped.
  function FirstServable(s: Lane, now: nat): (k: nat)
    ensures k <= |s.grants|
    ensures k < |s.grants| ==> Servable(s, s.grants[k], now)
    ensures forall i :: 0 <= i < k ==> !Servable(s, s.grants[i], now)
    decreases |s.grants|
  {
    if s.grants == [] then 0
    else if Servable(s, s.grants[0], now) then 0
    else
      assert forall i :: 1 <= i < |s.grants| ==> s.grants[i] == s.(grants := s.grants[1..]).grants[i - 1];
      1 + FirstServable(s.(grants := s.grants[1..]), now)
  }

  // Reserves the head of the queue of project p, which has one, for attempt a.
  function ReserveFor(s: Lane, p: Id, a: Id, lane: nat, until: nat): (Lane, Reservation)
    requires p in s.ready && s.ready[p] != [] && Get(s.credits, p) > 0
  {
    var c, rest := s.ready[p][0], s.ready[p][1..];
    var r := Reservation(a, c.project, lane, c.pool, c, false, s.meta.epoch);
    (s.(credits := s.credits[p := Get(s.credits, p) - 1],
        reservations := s.reservations[a := r],
        expiry := s.expiry[a := until],
        ready := if rest == [] then s.ready - {p} else s.ready[p := rest],
        active := if rest == [] then s.active - {p} else s.active), r)
  }

  function Reserve(s: Lane, a: Id, lane: nat, ttl: nat, now: nat): (Lane, Reserved)
    requires forall p :: p in s.ready ==> s.ready[p] != []
  {
    if s.meta.paused != Some(false) || s.meta.expiresAt <= now then (s, Paused)
    else if a in s.reservations then (s.(expiry := s.expiry[a := now + ttl]), Got(s.reservations[a]))
    else
      var k := FirstServable(s, now);
      if k == |s.grants| then (s.(grants := []), Nothing)
      else
        var (t, r) := ReserveFor(s.(grants := s.grants[k + 1..]), s.grants[k], a, lane, now + ttl);
        (t, Got(r))
  }

  // Drops a reservation; if asked to, and in the same open epoch, gives the candidate and the credit back.
  function Abort(s: Lane, a: Id, restore: bool): Lane {
    if a !in s.reservations then s.(expiry := s.expiry - {a})
    else
      var r := s.reservations[a];
      var t := s.(reservations := s.reservations - {a}, expiry := s.expiry - {a});
      if !restore || s.meta.paused != Some(false) || s.meta.epoch != r.epoch then t
      else
        t.(ready := t.ready[r.project := [r.candidate] + (if r.project in t.ready then t.ready[r.project] else [])],
           credits := t.credits[r.project := Get(t.credits, r.project) + 1],
           grants := [r.project] + t.grants)
  }

  function Confirm(s: Lane, a: Id, ttl: nat, now: nat): Lane {
    if a !in s.reservations then s
    else s.(reservations := s.reservations[a := s.reservations[a].(confirmed := true)], expiry := s.expiry[a := now + ttl])
  }

  // Forgets the reservations whose time has come.
  function Expire(s: Lane, now: nat): Lane {
    var gone := set a | a in s.expiry && s.expiry[a] <= now;
    s.(reservations := s.reservations - gone, expiry := s.expiry - gone)
  }
}
