/**
 Between planning and admission: reservations that are still out are charged against the windows
 once, and planned admissions are handed to the lanes in batches.
 */
module Reservations {
  import opened Ids
  import opened Json
  import opened Planner

  datatype Reservation = Reservation(
    attempt: Id, project: Id, lane: nat, pool: Resource, candidate: Candidate, confirmed: bool, epoch: nat)

  // ---------------------------------------------------------------- merging

  // The attempts known after the first i reservations: those in flight, and every unconfirmed one.
  ghost function Known(inflight: seq<Inflight>, rs: seq<Reservation>, i: nat): set<Id>
    requires i <= |rs|
  {
    AttemptsIn(inflight) + set k | 0 <= k < i && !rs[k].confirmed :: rs[k].attempt
  }

  // Reservation i counts: a confirmed one only while its attempt is known to be in flight.
  ghost predicate Counts(inflight: seq<Inflight>, rs: seq<Reservation>, i: nat)
    requires i < |rs|
  {
    !rs[i].confirmed || rs[i].attempt in Known(inflight, rs, i)
  }

  ghost function ReservedNodes(inflight: seq<Inflight>, rs: seq<Reservation>, i: nat): set<Id>
    requires i <= |rs|
  {
    set k | 0 <= k < i && Counts(inflight, rs, k) :: rs[k].candidate.nodeRun
  }

  function Without(s: seq<Candidate>, nodes: set<Id>): (r: seq<Candidate>)
    ensures forall c :: c in r <==> c in s && c.nodeRun !in nodes
  {
    if s == [] then []
    else Without(s[..|s| - 1], nodes) + (if s[|s| - 1].nodeRun in nodes then [] else [s[|s| - 1]])
  }

  // The reservations of a lane to keep when the lane is rebuilt.
  ghost function Kept(inflight: seq<Inflight>, rs: seq<Reservation>, i: nat, digest: Id -> nat, count: nat, lane: nat): set<Id>
    requires i <= |rs| && count > 0
  {
    Renewed(inflight, digest, count, lane) + set k | 0 <= k < i && Counts(inflight, rs, k) && rs[k].lane == lane :: rs[k].attempt
  }

  function AddTo(m: map<nat, set<Id>>, k: nat, a: Id): (r: map<nat, set<Id>>)
    ensures forall l :: GetSet(r, l) == if l == k then GetSet(m, l) + {a} else GetSet(m, l)
  {
    m[k := GetSet(m, k) + {a}]
  }

  // The reservations of a lane whose attempt is in flight.
  function Renewed(inflight: seq<Inflight>, digest: Id -> nat, count: nat, lane: nat): set<Id>
    requires count > 0
  {
    set v | v in inflight && LaneFor(digest, v.project, count) == lane :: v.attempt
  }

  function GetSet(m: map<nat, set<Id>>, k: nat): set<Id> {
    if k in m then m[k] else {}
  }

  lemma {:induction false} DistinctAttempts(s: seq<Inflight>)
    ensures AttemptsIn(Distinct(s)) == AttemptsIn(s) && |Distinct(s)| == |AttemptsIn(s)|
  {
    if s != [] {
      var rest, last := s[..|s| - 1], s[|s| - 1];
      DistinctAttempts(rest);
      assert s == rest + [last];
      hide Distinct, AttemptsIn;
      DistinctGrows(rest, last);
      LoadsGrow(rest, last);
      LoadsGrow(Distinct(rest), last);
    }
  }

  lemma RenewedGrows(s: seq<Inflight>, v: Inflight, digest: Id -> nat, count: nat, lane: nat)
    requires count > 0
    ensures Renewed(s + [v], digest, count, lane)
            == Renewed(s, digest, count, lane) + if LaneFor(digest, v.project, count) == lane then {v.attempt} else {}
  {
    hide LaneFor;
    var more := s + [v];
    forall a | a in Renewed(s, digest, count, lane) ensures a in Renewed(more, digest, count, lane) {
      var w :| w in s && LaneFor(digest, w.project, count) == lane && w.attempt == a;
      assert w in more;
    }
    assert v in more;
  }

  lemma KnownGrows(inflight: seq<Inflight>, rs: seq<Reservation>, i: nat)
    requires i < |rs|
    ensures Known(inflight, rs, i + 1) == Known(inflight, rs, i) + if rs[i].confirmed then {} else {rs[i].attempt}
  {
  }

  lemma ReservedGrows(inflight: seq<Inflight>, rs: seq<Reservation>, i: nat)
    requires i < |rs|
    ensures ReservedNodes(inflight, rs, i + 1) == ReservedNodes(inflight, rs, i) + if Counts(inflight, rs, i) then {rs[i].candidate.nodeRun} else {}
  {
    hide Counts;
  }

  lemma KeptGrows(inflight: seq<Inflight>, rs: seq<Reservation>, i: nat, digest: Id -> nat, count: nat, lane: nat)
    requires i < |rs| && count > 0
    ensures Kept(inflight, rs, i + 1, digest, count, lane)
            == if Counts(inflight, rs, i) && rs[i].lane == lane then Kept(inflight, rs, i, digest, count, lane) + {rs[i].attempt}
               else Kept(inflight, rs, i, digest, count, lane)
  {
    hide Counts, Renewed;
  }

  method RenewInFlight(inflight: seq<Inflight>, digest: Id -> nat, count: nat) returns (renew: map<nat, set<Id>>)
    requires count > 0
    ensures forall lane :: GetSet(renew, lane) == Renewed(inflight, digest, count, lane)
  {
    hide Renewed;
    renew := map[];
    forall lane ensures Renewed([], digest, count, lane) == {} {
      NothingRenewed(digest, count, lane);
    }
    for i := 0 to |inflight|
      invariant forall lane :: GetSet(renew, lane) == Renewed(inflight[..i], digest, count, lane)
    {
      var v := inflight[i];
      var lane := LaneFor(digest, v.project, count);
      assert inflight[..i + 1] == inflight[..i] + [v];
      forall l { RenewedGrows(inflight[..i], v, digest, count, l); }
      renew := AddTo(renew, lane, v.attempt);
    }
    assert inflight[..|inflight|] == inflight;
  }

  lemma NothingRenewed(digest: Id -> nat, count: nat, lane: nat)
    requires count > 0
    ensures Renewed([], digest, count, lane) == {}
  {
  }

  method DropReserved(s: seq<Candidate>, nodes: set<Id>) returns (r: seq<Candidate>)
    ensures r == Without(s, nodes)
  {
    r := [];
    for i := 0 to |s|
      invariant r == Without(s[..i], nodes)
    {
      assert s[..i + 1][..i] == s[..i];
      if s[i].nodeRun !in nodes { r := r + [s[i]]; }
    }
    assert s[..|s|] == s;
  }

  // v is what one of the first i reservations, which counts, is charged as: its attempt, project and pool.
  ghost predicate ChargedFor(inflight: seq<Inflight>, rs: seq<Reservation>, i: nat, v: Inflight)
    requires i <= |rs|
  {
    exists k :: 0 <= k < i && Counts(inflight, rs, k) && v == Inflight(rs[k].attempt, rs[k].project, rs[k].pool)
  }

  // What merging the listed reservations into the snapshot gives.
  ghost predicate IsMerge(snapshot: Snapshot, rs: seq<Reservation>, digest: Id -> nat, count: nat,
                          merged: Snapshot, keep: map<nat, set<Id>>, renew: map<nat, set<Id>>)
    requires count > 0
  {
    && snapshot.inflight <= merged.inflight && AttemptsIn(merged.inflight) == Known(snapshot.inflight, rs, |rs|)
    && |Distinct(merged.inflight)| == |Distinct(snapshot.inflight)| + (|merged.inflight| - |snapshot.inflight|)
    && (forall j :: |snapshot.inflight| <= j < |merged.inflight| ==> ChargedFor(snapshot.inflight, rs, |rs|, merged.inflight[j]))
    && merged.candidates == Without(snapshot.candidates, ReservedNodes(snapshot.inflight, rs, |rs|))
    && (forall lane :: GetSet(keep, lane) == Kept(snapshot.inflight, rs, |rs|, digest, count, lane))
    && (forall lane :: GetSet(renew, lane) == Renewed(snapshot.inflight, digest, count, lane))
  }

  // Charges every reservation that counts, once, and takes the nodes it reserves off the candidates.
  method MergeReservations(snapshot: Snapshot, rs: seq<Reservation>, digest: Id -> nat, count: nat)
    returns (merged: Snapshot, keep: map<nat, set<Id>>, renew: map<nat, set<Id>>)
    requires count > 0
    ensures IsMerge(snapshot, rs, digest, count, merged, keep, renew)
  {
    hide ChargedFor, Known, ReservedNodes, Kept, Renewed, Distinct, GetSet, Without, AttemptsIn;
    renew := RenewInFlight(snapshot.inflight, digest, count);
    var inflight, nodes: set<Id>;
    inflight, nodes, keep := ChargeReservations(snapshot.inflight, rs, digest, count, renew);
    DistinctAttempts(inflight);
    DistinctAttempts(snapshot.inflight);
    var candidates := DropReserved(snapshot.candidates, nodes);
    merged := Snapshot(candidates, inflight);
  }

  // The loop over the reservations: those that count are kept on their lane, and charged unless they are known.
  method ChargeReservations(known: seq<Inflight>, rs: seq<Reservation>, digest: Id -> nat, count: nat, renew: map<nat, set<Id>>)
    returns (inflight: seq<Inflight>, nodes: set<Id>, keep: map<nat, set<Id>>)
    requires count > 0 && forall lane :: GetSet(renew, lane) == Renewed(known, digest, count, lane)
    ensures known <= inflight && AttemptsIn(inflight) == Known(known, rs, |rs|)
    ensures |AttemptsIn(inflight)| == |AttemptsIn(known)| + (|inflight| - |known|)
    ensures forall j :: |known| <= j < |inflight| ==> ChargedFor(known, rs, |rs|, inflight[j])
    ensures nodes == ReservedNodes(known, rs, |rs|)
    ensures forall lane :: GetSet(keep, lane) == Kept(known, rs, |rs|, digest, count, lane)
  {
    hide ChargedFor, Known, ReservedNodes, Kept, Renewed, GetSet, AddTo, Counts;
    keep := renew;
    NothingReserved(known, rs, digest, count);
    inflight, nodes := known, {};
    var seen := AttemptsIn(known);
    hide AttemptsIn;
    for i := 0 to |rs|
      invariant known <= inflight && seen == AttemptsIn(inflight) == Known(known, rs, i)
      invariant |seen| == |AttemptsIn(known)| + (|inflight| - |known|)
      invariant forall j :: |known| <= j < |inflight| ==> ChargedFor(known, rs, i, inflight[j])
      invariant nodes == ReservedNodes(known, rs, i)
      invariant forall lane :: GetSet(keep, lane) == Kept(known, rs, i, digest, count, lane)
    {
      var r := rs[i];
      KnownGrows(known, rs, i);
      ReservedGrows(known, rs, i);
      CountsIs(known, rs, i);
      ChargedGrows(known, rs, i);
      KeepGrows(known, rs, i, digest, count, keep, if !r.confirmed || r.attempt in seen then AddTo(keep, r.lane, r.attempt) else keep);
      if !r.confirmed || r.attempt in seen {
        keep := AddTo(keep, r.lane, r.attempt);
        nodes := nodes + {r.candidate.nodeRun};
        if r.attempt !in seen {
          OneMoreAttempt(inflight, Inflight(r.attempt, r.project, r.pool));
          inflight := inflight + [Inflight(r.attempt, r.project, r.pool)];
          seen := seen + {r.attempt};
        }
      }
    }
  }

  lemma OneMoreAttempt(taken: seq<Inflight>, v: Inflight)
    ensures AttemptsIn(taken + [v]) == AttemptsIn(taken) + {v.attempt}
  {
  }

  lemma CountsIs(inflight: seq<Inflight>, rs: seq<Reservation>, i: nat)
    requires i < |rs|
    ensures Counts(inflight, rs, i) <==> !rs[i].confirmed || rs[i].attempt in Known(inflight, rs, i)
  {
    hide Known;
  }

  lemma ChargedGrows(inflight: seq<Inflight>, rs: seq<Reservation>, i: nat)
    requires i < |rs|
    ensures forall v :: ChargedFor(inflight, rs, i, v) ==> ChargedFor(inflight, rs, i + 1, v)
    ensures Counts(inflight, rs, i) ==> ChargedFor(inflight, rs, i + 1, Inflight(rs[i].attempt, rs[i].project, rs[i].pool))
  {
    hide Counts;
  }

  lemma KeepGrows(inflight: seq<Inflight>, rs: seq<Reservation>, i: nat, digest: Id -> nat, count: nat, keep: map<nat, set<Id>>, next: map<nat, set<Id>>)
    requires i < |rs| && count > 0 && forall lane :: GetSet(keep, lane) == Kept(inflight, rs, i, digest, count, lane)
    requires next == if Counts(inflight, rs, i) then AddTo(keep, rs[i].lane, rs[i].attempt) else keep
    ensures forall lane :: GetSet(next, lane) == Kept(inflight, rs, i + 1, digest, count, lane)
  {
    hide Kept, Counts;
    forall lane: nat ensures GetSet(next, lane) == Kept(inflight, rs, i + 1, digest, count, lane) {
      KeptGrows(inflight, rs, i, digest, count, lane);
    }
  }

  lemma NothingReserved(inflight: seq<Inflight>, rs: seq<Reservation>, digest: Id -> nat, count: nat)
    requires count > 0
    ensures Known(inflight, rs, 0) == AttemptsIn(inflight) && ReservedNodes(inflight, rs, 0) == {}
    ensures forall lane :: Kept(inflight, rs, 0, digest, count, lane) == Renewed(inflight, digest, count, lane)
  {
  }

  // ---------------------------------------------------------------- batches

  function Flatten(batches: seq<seq<Admission>>): seq<Admission> {
    if batches == [] then [] else Flatten(batches[..|batches| - 1]) + batches[|batches| - 1]
  }

  // Cuts the admissions into batches of the given size; only the last may be shorter.
  method CreditBatches(admissions: seq<Admission>, size: int) returns (r: Result<seq<seq<Admission>>>)
    ensures r.Err? <==> size <= 0
    ensures r.Ok? ==> Flatten(r.value) == admissions
    ensures r.Ok? ==> forall i :: 0 <= i < |r.value| ==> 0 < |r.value[i]| <= size && (i < |r.value| - 1 ==> |r.value[i]| == size)
  {
    if size <= 0 { return Err; }
    var batches: seq<seq<Admission>> := [];
    var rest := admissions;
    while rest != []
      invariant Flatten(batches) + rest == admissions
      invariant forall i :: 0 <= i < |batches| ==> 0 < |batches[i]| <= size
      invariant forall i :: 0 <= i < |batches| && (i < |batches| - 1 || rest != []) ==> |batches[i]| == size
      decreases |rest|
    {
      var n := if size < |rest| then size else |rest|;
      var batch := rest[..n];
      assert (batches + [batch])[..|batches|] == batches;
      assert rest == batch + rest[n..];
      batches := batches + [batch];
      rest := rest[n..];
    }
    return Ok(batches);
  }
}
