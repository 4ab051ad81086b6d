/**
 Project-fair planning: progressive filling of the global and pool windows, one admission at a
 time to a project with the fewest attempts in flight or granted.
 */
module Planner {
  import opened Ids
  import opened Json

  datatype Resource = Builtin | Sandbox | Other(name: string) {
    predicate Valid() {
      !Other?
    }
  }

  datatype Candidate = Candidate(
    project: Id, run: Id, nodeRun: Id, node: Id, version: nat, priority: int, readyAt: nat, pool: Resource)
  {
    predicate Valid() {
      project != "" && run != "" && nodeRun != "" && node != "" && version != 0 && readyAt != 0 && pool.Valid()
    }
  }

  datatype Inflight = Inflight(attempt: Id, project: Id, pool: Resource) {
    predicate Valid() {
      attempt != "" && project != "" && pool.Valid()
    }
  }

  datatype Snapshot = Snapshot(candidates: seq<Candidate>, inflight: seq<Inflight>)

  datatype Admission = Admission(project: Id, pool: Resource)

  datatype LanePlan = LanePlan(lane: nat, candidates: seq<Candidate>, inflight: seq<Inflight>, admissions: seq<Admission>)

  datatype Plan = Plan(epoch: nat, globalWindow: nat, poolWindows: map<Resource, int>, lanes: seq<LanePlan>, total: nat)

  // ---------------------------------------------------------------- lanes

  predicate PowerOfTwo(n: int) {
    n == 1 || (n > 1 && n % 2 == 0 && PowerOfTwo(n / 2))
  }

  // The lane of a project: the low bits of its digest.
  function LaneFor(digest: Id -> nat, project: Id, count: nat): (lane: nat)
    requires count > 0
    ensures lane < count
  {
    digest(project) % count
  }

  // ---------------------------------------------------------------- the order of candidates

  // By project, then priority downwards, then time of readiness, then node run.
  predicate Before(a: Candidate, b: Candidate) {
    if a.project != b.project then Le(a.project, b.project)
    else if a.priority != b.priority then a.priority > b.priority
    else if a.readyAt != b.readyAt then a.readyAt < b.readyAt
    else Le(a.nodeRun, b.nodeRun)
  }

  ghost predicate Sorted(s: seq<Candidate>) {
    forall i, j :: 0 <= i < j < |s| ==> Before(s[i], s[j])
  }

  lemma BeforeTotal(a: Candidate, b: Candidate)
    ensures Before(a, b) || Before(b, a)
  {
    LeTotal(a.project, b.project);
    LeTotal(a.nodeRun, b.nodeRun);
  }

  lemma BeforeTransitive(a: Candidate, b: Candidate, c: Candidate)
    requires Before(a, b) && Before(b, c)
    ensures Before(a, c)
  {
    if a.project != b.project && b.project != c.project {
      LeTransitive(a.project, b.project, c.project);
      if a.project == c.project { LeAntisymmetric(a.project, b.project); }
    } else if a.nodeRun != b.nodeRun || b.nodeRun != c.nodeRun {
      if Le(a.nodeRun, b.nodeRun) && Le(b.nodeRun, c.nodeRun) { LeTransitive(a.nodeRun, b.nodeRun, c.nodeRun); }
    } else {
    }
  }

  // Puts x after everything that belongs before it.
  method InsertCandidate(s: seq<Candidate>, x: Candidate) returns (r: seq<Candidate>)
    requires Sorted(s)
    ensures Sorted(r) && multiset(r) == multiset(s) + multiset{x}
  {
    hide Before;
    var i := |s|;
    while i > 0 && !Before(s[i - 1], x)
      invariant 0 <= i <= |s| && forall k :: i <= k < |s| ==> Before(x, s[k])
    {
      BeforeTotal(s[i - 1], x);
      i := i - 1;
    }
    r := s[..i] + [x] + s[i..];
    forall j, k | 0 <= j < k < |r| ensures Before(r[j], r[k]) {
      if j < i && k == i && j < i - 1 { BeforeTransitive(s[j], s[i - 1], x); }
    }
    assert s == s[..i] + s[i..];
  }

  method SortCandidates(s: seq<Candidate>) returns (r: seq<Candidate>)
    ensures Sorted(r) && multiset(r) == multiset(s)
  {
    r := [];
    for i := 0 to |s|
      invariant Sorted(r) && multiset(r) == multiset(s[..i])
    {
      r := InsertCandidate(r, s[i]);
      assert s[..i + 1] == s[..i] + [s[i]];
    }
    assert s[..|s|] == s;
  }

  // ---------------------------------------------------------------- what is in flight

  // The reservations with distinct attempts, the first of each.
  function Distinct(s: seq<Inflight>): (r: seq<Inflight>)
    ensures forall i :: 0 <= i < |r| ==> r[i] in s
  {
    if s == [] then []
    else
      var rest, last := Distinct(s[..|s| - 1]), s[|s| - 1];
      if exists i :: 0 <= i < |rest| && rest[i].attempt == last.attempt then rest else rest + [last]
  }

  function ProjectCount(s: seq<Inflight>, project: Id): nat {
    if s == [] then 0 else ProjectCount(s[..|s| - 1], project) + (if s[|s| - 1].project == project then 1 else 0)
  }

  function PoolCount(s: seq<Inflight>, pool: Resource): nat {
    if s == [] then 0 else PoolCount(s[..|s| - 1], pool) + (if s[|s| - 1].pool == pool then 1 else 0)
  }

  // The candidates of one project, in order.
  function QueueOf(s: seq<Candidate>, project: Id): seq<Candidate> {
    if s == [] then []
    else QueueOf(s[..|s| - 1], project) + (if s[|s| - 1].project == project then [s[|s| - 1]] else [])
  }

  // ---------------------------------------------------------------- progressive filling

  // order holds the admissions granted so far, room and pools what is left of the windows.
  datatype Filling = Filling(
    queues: map<Id, seq<Candidate>>, granted: map<Id, nat>, room: nat, pools: map<Resource, nat>, order: seq<Admission>)

  function Get<T>(m: map<T, nat>, k: T): nat {
    if k in m then m[k] else 0
  }

  // Project p has a candidate that the pools still have room for.
  predicate Open(f: Filling, p: Id) {
    p in f.queues && f.queues[p] != [] && Get(f.pools, f.queues[p][0].pool) > 0
  }

  function Level(inflight: map<Id, nat>, f: Filling, p: Id): nat {
    Get(inflight, p) + Get(f.granted, p)
  }

  // The first open project, in the order of the list, among those with the lowest level.
  function Pick(inflight: map<Id, nat>, f: Filling, projects: seq<Id>): Option<Id> {
    if projects == [] then None
    else
      var best, last := Pick(inflight, f, projects[..|projects| - 1]), projects[|projects| - 1];
      if !Open(f, last) then best
      else if best.None? || Level(inflight, f, last) < Level(inflight, f, best.value) then Some(last)
      else best
  }

  function Grant(f: Filling, p: Id): Filling
    requires Open(f, p) && f.room > 0
  {
    var c := f.queues[p][0];
    Filling(f.queues[p := f.queues[p][1..]], f.granted[p := Get(f.granted, p) + 1], f.room - 1,
            f.pools[c.pool := Get(f.pools, c.pool) - 1], f.order + [Admission(p, c.pool)])
  }

  lemma {:induction false} PickIsOpen(inflight: map<Id, nat>, f: Filling, projects: seq<Id>)
    ensures var p := Pick(inflight, f, projects);
            && (p.None? ==> forall q :: q in projects ==> !Open(f, q))
            && (p.Some? ==> p.value in projects && Open(f, p.value)
                            && forall q :: q in projects && Open(f, q) ==> Level(inflight, f, p.value) <= Level(inflight, f, q))
  {
    if projects != [] {
      PickIsOpen(inflight, f, projects[..|projects| - 1]);
      assert projects == projects[..|projects| - 1] + [projects[|projects| - 1]];
    }
  }

  // Among the lowest, the one that comes first in the list is picked.
  lemma {:induction false} PickIsFirst(inflight: map<Id, nat>, f: Filling, projects: seq<Id>, i: nat)
    requires i < |projects| && Pick(inflight, f, projects).Some? && Open(f, projects[i])
    requires Level(inflight, f, projects[i]) == Level(inflight, f, Pick(inflight, f, projects).value)
    ensures Pick(inflight, f, projects).value in projects[..i + 1]
  {
    var n := |projects| - 1;
    PickIsOpen(inflight, f, projects);
    assert projects == projects[..n] + [projects[n]];
    if i < n {
      PickIsOpen(inflight, f, projects[..n]);
      assert projects[i] in projects[..n];
      PickIsFirst(inflight, f, projects[..n], i);
      assert projects[..n][..i + 1] == projects[..i + 1];
    } else {
      assert projects[..i + 1] == projects;
    }
  }

  function Fill(inflight: map<Id, nat>, projects: seq<Id>, f: Filling): Filling
    decreases f.room
  {
    if f.room == 0 then f
    else
      PickIsOpen(inflight, f, projects);
      match Pick(inflight, f, projects)
      case None => f
      case Some(p) => Fill(inflight, projects, Grant(f, p))
  }

  // ---------------------------------------------------------------- what filling guarantees

  // The pools of the admissions of project p, in the order they were granted.
  function PoolsOf(order: seq<Admission>, p: Id): seq<Resource> {
    if order == [] then []
    else PoolsOf(order[..|order| - 1], p) + (if order[|order| - 1].project == p then [order[|order| - 1].pool] else [])
  }

  function PoolUse(order: seq<Admission>, pool: Resource): nat {
    if order == [] then 0 else PoolUse(order[..|order| - 1], pool) + (if order[|order| - 1].pool == pool then 1 else 0)
  }

  function Pools(s: seq<Candidate>): (r: seq<Resource>)
    ensures |r| == |s| && forall i :: 0 <= i < |s| ==> r[i] == s[i].pool
  {
    if s == [] then [] else Pools(s[..|s| - 1]) + [s[|s| - 1].pool]
  }

  // A project that was granted anything is at most one level above any project that could still be served.
  ghost predicate Fair(inflight: map<Id, nat>, f: Filling) {
    forall p, q :: Get(f.granted, p) > 0 && Open(f, q) ==> Level(inflight, f, p) <= Level(inflight, f, q) + 1
  }

  // What project p was granted is the beginning of its queue in f0, and the rest is still queued.
  ghost predicate Served(f0: Filling, f: Filling, p: Id) {
    if p !in f0.queues then Get(f.granted, p) == 0 && PoolsOf(f.order, p) == []
    else
      && p in f.queues && Get(f.granted, p) <= |f0.queues[p]|
      && f.queues[p] == f0.queues[p][Get(f.granted, p)..]
      && PoolsOf(f.order, p) == Pools(f0.queues[p][..Get(f.granted, p)])
  }

  // Every window was charged exactly what was granted from it.
  ghost predicate Charged(f0: Filling, f: Filling) {
    && |f.order| + f.room == f0.room
    && forall pool :: Get(f.pools, pool) + PoolUse(f.order, pool) == Get(f0.pools, pool)
  }

  ghost predicate FilledFrom(inflight: map<Id, nat>, f0: Filling, f: Filling) {
    Fair(inflight, f) && Charged(f0, f) && f.queues.Keys == f0.queues.Keys && forall p :: Served(f0, f, p)
  }

  lemma GrantKeepsFair(inflight: map<Id, nat>, f: Filling, p: Id)
    requires Fair(inflight, f) && Open(f, p) && f.room > 0
    requires forall q :: Open(f, q) ==> Level(inflight, f, p) <= Level(inflight, f, q)
    ensures Fair(inflight, Grant(f, p))
  {
    var g := Grant(f, p);
    forall a, q | Get(g.granted, a) > 0 && Open(g, q) ensures Level(inflight, g, a) <= Level(inflight, g, q) + 1 {
      assert q != p ==> Open(f, q);
      if a != p {
        assert Get(f.granted, a) > 0 && Level(inflight, f, a) <= Level(inflight, f, q) + 1;
      }
    }
  }

  lemma GrantServes(f0: Filling, f: Filling, p: Id, q: Id)
    requires Open(f, p) && f.room > 0 && Served(f0, f, p) && Served(f0, f, q) && f.queues.Keys == f0.queues.Keys
    ensures Served(f0, Grant(f, p), q)
  {
    var g := Grant(f, p);
    assert g.order[..|f.order|] == f.order;
    if q == p {
      var k := Get(f.granted, p);
      var whole := f0.queues[p];
      assert f.queues[p][0] == whole[k];
      assert f.queues[p][1..] == whole[k + 1..];
      assert whole[..k + 1][..k] == whole[..k];
    }
  }

  lemma GrantCharges(f0: Filling, f: Filling, p: Id)
    requires Open(f, p) && f.room > 0 && Charged(f0, f)
    ensures Charged(f0, Grant(f, p))
  {
    var g := Grant(f, p);
    assert g.order[..|f.order|] == f.order;
  }

  // Filling is fair, serves every project from the head of its queue, never exceeds a window, and
  // stops only when the global window is used up or nothing that is left fits a pool.
  lemma {:induction false} FillIsFair(inflight: map<Id, nat>, projects: seq<Id>, f0: Filling, f: Filling)
    requires FilledFrom(inflight, f0, f) && forall q :: q in f.queues ==> q in projects
    ensures var g := Fill(inflight, projects, f);
            FilledFrom(inflight, f0, g) && (g.room == 0 || forall q :: !Open(g, q))
    decreases f.room
  {
    hide Fair, Charged, Served;
    if f.room > 0 {
      PickIsOpen(inflight, f, projects);
      var picked := Pick(inflight, f, projects);
      if picked.Some? {
        var p := picked.value;
        GrantKeepsFair(inflight, f, p);
        GrantCharges(f0, f, p);
        forall q ensures Served(f0, Grant(f, p), q) {
          GrantServes(f0, f, p, q);
        }
        FillIsFair(inflight, projects, f0, Grant(f, p));
      }
    }
  }

  // ---------------------------------------------------------------- the plan as a function

  function ProjectsOf(s: seq<Candidate>): set<Id> {
    set c | c in s :: c.project
  }

  function QueuesOf(s: seq<Candidate>): map<Id, seq<Candidate>> {
    map p | p in ProjectsOf(s) :: QueueOf(s, p)
  }

  function Rotated<T>(s: seq<T>, k: nat): (r: seq<T>)
    requires k <= |s|
  {
    s[k..] + s[..k]
  }

  // The projects in ascending order, starting a place later every epoch.
  ghost function Turn(s: seq<Candidate>, epoch: nat): seq<Id>
    requires epoch > 0
  {
    var ids := Listing(ProjectsOf(s));
    if ids == [] then [] else Rotated(ids, (epoch - 1) % |ids|)
  }

  function AtLeastZero(x: int): nat {
    if x < 0 then 0 else x
  }

  function StartOf(sorted: seq<Candidate>, taken: seq<Inflight>, window: int, windows: map<Resource, int>): Filling {
    Filling(QueuesOf(sorted), map[], AtLeastZero(window - |taken|),
            RoomsOf(windows, taken), [])
  }

  function RoomsOf(windows: map<Resource, int>, taken: seq<Inflight>): map<Resource, nat> {
    map c | c in windows :: AtLeastZero(windows[c] - PoolCount(taken, c))
  }

  function Loads(taken: seq<Inflight>): map<Id, nat> {
    map p | p in (set v | v in taken :: v.project) :: ProjectCount(taken, p)
  }

  ghost function Filled(sorted: seq<Candidate>, inflight: seq<Inflight>, window: int, windows: map<Resource, int>, epoch: nat): Filling
    requires epoch > 0
  {
    var taken := Distinct(inflight);
    Fill(Loads(taken), Turn(sorted, epoch), StartOf(sorted, taken, window, windows))
  }

  function LaneCandidates(s: seq<Candidate>, digest: Id -> nat, count: nat, lane: nat): seq<Candidate>
    requires count > 0
  {
    if s == [] then []
    else
      LaneCandidates(s[..|s| - 1], digest, count, lane)
      + (if LaneFor(digest, s[|s| - 1].project, count) == lane then [s[|s| - 1]] else [])
  }

  function LaneInflight(s: seq<Inflight>, digest: Id -> nat, count: nat, lane: nat): seq<Inflight>
    requires count > 0
  {
    if s == [] then []
    else
      LaneInflight(s[..|s| - 1], digest, count, lane)
      + (if LaneFor(digest, s[|s| - 1].project, count) == lane then [s[|s| - 1]] else [])
  }

  function LaneAdmissions(s: seq<Admission>, digest: Id -> nat, count: nat, lane: nat): seq<Admission>
    requires count > 0
  {
    if s == [] then []
    else
      LaneAdmissions(s[..|s| - 1], digest, count, lane)
      + (if LaneFor(digest, s[|s| - 1].project, count) == lane then [s[|s| - 1]] else [])
  }

  ghost function LaneOf(sorted: seq<Candidate>, inflight: seq<Inflight>, order: seq<Admission>, digest: Id -> nat, count: nat, lane: nat): LanePlan
    requires count > 0
  {
    LanePlan(lane, LaneCandidates(sorted, digest, count, lane), LaneInflight(inflight, digest, count, lane), LaneAdmissions(order, digest, count, lane))
  }

  ghost predicate ValidInput(snapshot: Snapshot, count: int, window: int, epoch: nat) {
    && PowerOfTwo(count) && window >= 0 && epoch > 0
    && (forall i :: 0 <= i < |snapshot.candidates| ==> snapshot.candidates[i].Valid())
    && (forall i :: 0 <= i < |snapshot.inflight| ==> snapshot.inflight[i].Valid())
  }

  ghost function PlanOf(sorted: seq<Candidate>, inflight: seq<Inflight>, digest: Id -> nat, count: nat, window: nat,
                        windows: map<Resource, int>, epoch: nat): Plan
    requires count > 0 && epoch > 0
  {
    var order := Filled(sorted, inflight, window, windows, epoch).order;
    Plan(epoch, window, windows, seq(count, lane requires lane >= 0 => LaneOf(sorted, inflight, order, digest, count, lane)), |order|)
  }

  // ---------------------------------------------------------------- the loops

  function AttemptsIn(s: seq<Inflight>): set<Id> {
    set v | v in s :: v.attempt
  }

  // One more reservation counts only if its attempt is new.
  lemma DistinctGrows(s: seq<Inflight>, v: Inflight)
    ensures Distinct(s + [v]) == if v.attempt in AttemptsIn(Distinct(s)) then Distinct(s) else Distinct(s) + [v]
  {
    assert (s + [v])[..|s|] == s;
  }

  lemma LoadsGrow(taken: seq<Inflight>, v: Inflight)
    ensures Loads(taken + [v]) == Loads(taken)[v.project := Get(Loads(taken), v.project) + 1]
    ensures AttemptsIn(taken + [v]) == AttemptsIn(taken) + {v.attempt}
    ensures forall c :: PoolCount(taken + [v], c) == PoolCount(taken, c) + if v.pool == c then 1 else 0
  {
    var more := taken + [v];
    assert more[..|taken|] == taken;
    if v.project !in Loads(taken) { NoLoad(taken, v.project); }
  }

  lemma {:induction false} NoLoad(taken: seq<Inflight>, p: Id)
    requires forall v :: v in taken ==> v.project != p
    ensures ProjectCount(taken, p) == 0
  {
    if taken != [] {
      NoLoad(taken[..|taken| - 1], p);
    }
  }

  // Counts every attempt once, whatever the order in which reservations repeat it.
  method CountInflight(inflight: seq<Inflight>) returns (ok: bool, seen: nat, projects: map<Id, nat>, pools: map<Resource, nat>)
    ensures ok <==> forall i :: 0 <= i < |inflight| ==> inflight[i].Valid()
    ensures ok ==> seen == |Distinct(inflight)| && projects == Loads(Distinct(inflight))
    ensures ok ==> forall c :: Get(pools, c) == PoolCount(Distinct(inflight), c)
  {
    hide Distinct, Loads, AttemptsIn, PoolCount;
    projects, pools := map[], map[];
    var attempts: set<Id> := {};
    ghost var taken: seq<Inflight> := [];
    NothingTaken();
    for i := 0 to |inflight|
      invariant forall k :: 0 <= k < i ==> inflight[k].Valid()
      invariant taken == Distinct(inflight[..i]) && attempts == AttemptsIn(taken) && |attempts| == |taken|
      invariant projects == Loads(taken)
      invariant forall c :: Get(pools, c) == PoolCount(taken, c)
    {
      var v := inflight[i];
      if !v.Valid() { return false, 0, map[], map[]; }
      assert inflight[..i + 1] == inflight[..i] + [v];
      DistinctGrows(inflight[..i], v);
      if v.attempt !in attempts {
        LoadsGrow(taken, v);
        taken := taken + [v];
        attempts := attempts + {v.attempt};
        projects := projects[v.project := Get(projects, v.project) + 1];
        pools := pools[v.pool := Get(pools, v.pool) + 1];
      }
    }
    assert inflight[..|inflight|] == inflight;
    return true, |attempts|, projects, pools;
  }

  lemma NothingTaken()
    ensures Distinct([]) == [] && Loads([]) == map[] && AttemptsIn([]) == {} && forall c :: PoolCount([], c) == 0
  {
  }

  lemma QueueGrows(s: seq<Candidate>, c: Candidate, p: Id)
    ensures QueueOf(s + [c], p) == QueueOf(s, p) + if c.project == p then [c] else []
  {
    assert (s + [c])[..|s|] == s;
  }

  lemma QueuesGrow(s: seq<Candidate>, c: Candidate)
    ensures QueuesOf(s + [c]) == QueuesOf(s)[c.project := (if c.project in QueuesOf(s) then QueuesOf(s)[c.project] else []) + [c]]
  {
    hide QueueOf;
    assert ProjectsOf(s + [c]) == ProjectsOf(s) + {c.project};
    if c.project !in QueuesOf(s) { NoQueue(s, c.project); }
    var before, after := QueuesOf(s), QueuesOf(s + [c]);
    assert after.Keys == before.Keys + {c.project};
    forall p | p in after.Keys
      ensures after[p] == if p == c.project then (if p in before then before[p] else []) + [c] else before[p]
    {
      QueueGrows(s, c, p);
    }
  }

  lemma {:induction false} NoQueue(s: seq<Candidate>, p: Id)
    requires p !in ProjectsOf(s)
    ensures QueueOf(s, p) == []
  {
    if s != [] {
      assert s[|s| - 1] in s;
      forall c | c in s[..|s| - 1] ensures c in s {}
      NoQueue(s[..|s| - 1], p);
    }
  }

  method BuildQueues(sorted: seq<Candidate>) returns (queues: map<Id, seq<Candidate>>)
    ensures queues == QueuesOf(sorted)
  {
    hide QueuesOf;
    queues := map[];
    assert QueuesOf([]) == map[] by { NoQueues(); }
    for i := 0 to |sorted|
      invariant queues == QueuesOf(sorted[..i])
    {
      var c := sorted[i];
      assert sorted[..i + 1] == sorted[..i] + [c];
      QueuesGrow(sorted[..i], c);
      queues := queues[c.project := (if c.project in queues then queues[c.project] else []) + [c]];
    }
    assert sorted[..|sorted|] == sorted;
  }

  lemma NoQueues()
    ensures QueuesOf([]) == map[]
  {
  }

  method PickProject(inflight: map<Id, nat>, f: Filling, projects: seq<Id>) returns (selected: Option<Id>)
    ensures selected == Pick(inflight, f, projects)
  {
    selected := None;
    for i := 0 to |projects|
      invariant selected == Pick(inflight, f, projects[..i])
    {
      assert projects[..i + 1][..i] == projects[..i];
      if Open(f, projects[i]) {
        var level := Level(inflight, f, projects[i]);
        if selected.None? || level < Level(inflight, f, selected.value) {
          selected := Some(projects[i]);
        }
      }
    }
    assert projects[..|projects|] == projects;
  }

  // The filling loop: one admission at a time to the picked project, appended to its lane.
  method FillWindows(inflight: map<Id, nat>, projects: seq<Id>, start: Filling, digest: Id -> nat, count: nat)
    returns (planned: seq<seq<Admission>>, ghost order: seq<Admission>)
    requires count > 0 && start.order == []
    ensures order == Fill(inflight, projects, start).order && |planned| == count
    ensures forall l :: 0 <= l < count ==> planned[l] == LaneAdmissions(order, digest, count, l)
  {
    var f := start;
    planned := seq(count, _ => []);
    while f.room > 0
      invariant Fill(inflight, projects, f) == Fill(inflight, projects, start) && |planned| == count
      invariant forall l :: 0 <= l < count ==> planned[l] == LaneAdmissions(f.order, digest, count, l)
      decreases f.room
    {
      var selected := PickProject(inflight, f, projects);
      PickIsOpen(inflight, f, projects);
      if selected.None? { break; }
      var p := selected.value;
      var admission := Admission(p, f.queues[p][0].pool);
      var lane := LaneFor(digest, p, count);
      forall l | 0 <= l < count
        ensures LaneAdmissions(f.order + [admission], digest, count, l) == planned[l] + if l == lane then [admission] else []
      {
        assert (f.order + [admission])[..|f.order|] == f.order;
      }
      planned := planned[lane := planned[lane] + [admission]];
      f := Grant(f, p);
    }
    order := f.order;
  }

  method SplitCandidates(s: seq<Candidate>, digest: Id -> nat, count: nat) returns (lanes: seq<seq<Candidate>>)
    requires count > 0
    ensures |lanes| == count && forall l :: 0 <= l < count ==> lanes[l] == LaneCandidates(s, digest, count, l)
  {
    lanes := seq(count, _ => []);
    for i := 0 to |s|
      invariant |lanes| == count && forall l :: 0 <= l < count ==> lanes[l] == LaneCandidates(s[..i], digest, count, l)
    {
      assert s[..i + 1][..i] == s[..i];
      var lane := LaneFor(digest, s[i].project, count);
      lanes := lanes[lane := lanes[lane] + [s[i]]];
    }
    assert s[..|s|] == s;
  }

  method SplitInflight(s: seq<Inflight>, digest: Id -> nat, count: nat) returns (lanes: seq<seq<Inflight>>)
    requires count > 0
    ensures |lanes| == count && forall l :: 0 <= l < count ==> lanes[l] == LaneInflight(s, digest, count, l)
  {
    lanes := seq(count, _ => []);
    for i := 0 to |s|
      invariant |lanes| == count && forall l :: 0 <= l < count ==> lanes[l] == LaneInflight(s[..i], digest, count, l)
    {
      assert s[..i + 1][..i] == s[..i];
      var lane := LaneFor(digest, s[i].project, count);
      lanes := lanes[lane := lanes[lane] + [s[i]]];
    }
    assert s[..|s|] == s;
  }

  // ---------------------------------------------------------------- sums over the lanes

  // The admissions from one pool, or from any.
  function Use(order: seq<Admission>, which: Option<Resource>): nat {
    if order == [] then 0
    else Use(order[..|order| - 1], which) + (if which.None? || order[|order| - 1].pool == which.value then 1 else 0)
  }

  lemma {:induction false} UseIs(order: seq<Admission>, pool: Resource)
    ensures Use(order, None) == |order| && Use(order, Some(pool)) == PoolUse(order, pool)
  {
    if order != [] {
      UseIs(order[..|order| - 1], pool);
    }
  }

  // The use of lanes 0 to n - 1 together.
  function LanesUse(lanes: seq<seq<Admission>>, which: Option<Resource>): nat {
    if lanes == [] then 0 else LanesUse(lanes[..|lanes| - 1], which) + Use(lanes[|lanes| - 1], which)
  }

  // The use of the admissions whose lane is below n.
  function UseBelow(order: seq<Admission>, digest: Id -> nat, count: nat, n: nat, which: Option<Resource>): nat
    requires count > 0
  {
    if order == [] then 0
    else
      var last := order[|order| - 1];
      UseBelow(order[..|order| - 1], digest, count, n, which)
      + (if LaneFor(digest, last.project, count) < n && (which.None? || last.pool == which.value) then 1 else 0)
  }

  lemma {:induction false} UseBelowStep(order: seq<Admission>, digest: Id -> nat, count: nat, n: nat, which: Option<Resource>)
    requires count > 0
    ensures UseBelow(order, digest, count, n + 1, which)
            == UseBelow(order, digest, count, n, which) + Use(LaneAdmissions(order, digest, count, n), which)
  {
    if order != [] {
      var rest, last := order[..|order| - 1], order[|order| - 1];
      UseBelowStep(rest, digest, count, n, which);
      var lane := LaneAdmissions(rest, digest, count, n);
      if LaneFor(digest, last.project, count) == n {
        assert (lane + [last])[..|lane|] == lane;
      } else {
        assert lane + [] == lane;
      }
    }
  }

  lemma {:induction false} UseBelowEnds(order: seq<Admission>, digest: Id -> nat, count: nat, which: Option<Resource>)
    requires count > 0
    ensures UseBelow(order, digest, count, 0, which) == 0 && UseBelow(order, digest, count, count, which) == Use(order, which)
  {
    if order != [] {
      UseBelowEnds(order[..|order| - 1], digest, count, which);
    }
  }

  lemma {:induction false} LanesAddUp(lanes: seq<seq<Admission>>, order: seq<Admission>, digest: Id -> nat, count: nat, which: Option<Resource>)
    requires count > 0 && |lanes| <= count && forall l :: 0 <= l < |lanes| ==> lanes[l] == LaneAdmissions(order, digest, count, l)
    ensures LanesUse(lanes, which) == UseBelow(order, digest, count, |lanes|, which)
  {
    UseBelowEnds(order, digest, count, which);
    if lanes != [] {
      LanesAddUp(lanes[..|lanes| - 1], order, digest, count, which);
      UseBelowStep(order, digest, count, |lanes| - 1, which);
    }
  }

  // ---------------------------------------------------------------- building a plan

  // What the reservations in flight leave of every pool window.
  method PoolRooms(windows: map<Resource, int>, pools: map<Resource, nat>, ghost taken: seq<Inflight>) returns (rooms: map<Resource, nat>)
    requires forall c :: Get(pools, c) == PoolCount(taken, c)
    ensures rooms == RoomsOf(windows, taken)
  {
    hide PoolCount;
    rooms := map[];
    var rest := windows.Keys;
    while rest != {}
      invariant rest <= windows.Keys && rooms.Keys == windows.Keys - rest
      invariant forall c :: c in rooms ==> rooms[c] == AtLeastZero(windows[c] - PoolCount(taken, c))
      decreases |rest|
    {
      var c :| c in rest;
      rooms := rooms[c := AtLeastZero(windows[c] - Get(pools, c))];
      rest := rest - {c};
    }
  }

  // The queues, what is in flight, and what is left of the windows.
  method Prepare(candidates: seq<Candidate>, inflight: seq<Inflight>, window: int, windows: map<Resource, int>, epoch: nat)
    returns (ok: bool, loads: map<Id, nat>, projects: seq<Id>, start: Filling)
    requires epoch > 0
    ensures ok <==> forall i :: 0 <= i < |inflight| ==> inflight[i].Valid()
    ensures ok ==> loads == Loads(Distinct(inflight)) && projects == Turn(candidates, epoch)
    ensures ok ==> start == StartOf(candidates, Distinct(inflight), window, windows)
  {
    hide Distinct, Loads, QueuesOf, PoolCount, ProjectsOf, RoomsOf;
    var queues := BuildQueues(candidates);
    QueuesDomain(candidates);
    var ids := SortIds(queues.Keys);
    AscendingUnique(ids, Listing(ProjectsOf(candidates)));
    projects := if ids == [] then [] else Rotated(ids, (epoch - 1) % |ids|);
    var seen, pools;
    ok, seen, loads, pools := CountInflight(inflight);
    var rooms := map[];
    if ok { rooms := PoolRooms(windows, pools, Distinct(inflight)); }
    start := Filling(queues, map[], AtLeastZero(window - seen), rooms, []);
  }

  method AssembleLanes(candidates: seq<seq<Candidate>>, inflight: seq<seq<Inflight>>, planned: seq<seq<Admission>>)
    returns (lanes: seq<LanePlan>, total: nat)
    requires |candidates| == |inflight| == |planned|
    ensures |lanes| == |planned| && total == LanesUse(planned, None)
    ensures forall l :: 0 <= l < |lanes| ==> lanes[l] == LanePlan(l, candidates[l], inflight[l], planned[l])
  {
    lanes, total := [], 0;
    for lane := 0 to |planned|
      invariant |lanes| == lane && total == LanesUse(planned[..lane], None)
      invariant forall l :: 0 <= l < lane ==> lanes[l] == LanePlan(l, candidates[l], inflight[l], planned[l])
    {
      lanes := lanes + [LanePlan(lane, candidates[lane], inflight[lane], planned[lane])];
      assert planned[..lane + 1][..lane] == planned[..lane];
      UseIs(planned[lane], Builtin);
      total := total + |planned[lane]|;
    }
    assert planned[..|planned|] == planned;
  }

  method BuildPlan(snapshot: Snapshot, digest: Id -> nat, count: int, window: int, windows: map<Resource, int>, epoch: nat)
    returns (r: Result<Plan>, ghost sorted: seq<Candidate>)
    ensures r.Ok? <==> ValidInput(snapshot, count, window, epoch)
    ensures r.Ok? ==> Sorted(sorted) && multiset(sorted) == multiset(snapshot.candidates)
    ensures r.Ok? ==> r.value == PlanOf(sorted, snapshot.inflight, digest, count, window, windows, epoch)
  {
    hide Sorted, Distinct, Loads, Fill, StartOf, Turn, LanesUse, LaneAdmissions, LaneCandidates, LaneInflight, Use, UseBelow;
    sorted := [];
    if !PowerOfTwo(count) || window < 0 || epoch == 0 { return Err, sorted; }
    for i := 0 to |snapshot.candidates|
      invariant forall k :: 0 <= k < i ==> snapshot.candidates[k].Valid()
    {
      if !snapshot.candidates[i].Valid() { return Err, sorted; }
    }
    var candidates := SortCandidates(snapshot.candidates);
    sorted := candidates;
    var ok, loads, projects, start := Prepare(candidates, snapshot.inflight, window, windows, epoch);
    if !ok { return Err, sorted; }
    StartIsEmpty(candidates, Distinct(snapshot.inflight), window, windows);
    var planned;
    ghost var order;
    planned, order := FillWindows(loads, projects, start, digest, count);
    var laneCandidates := SplitCandidates(candidates, digest, count);
    var laneInflight := SplitInflight(snapshot.inflight, digest, count);
    var lanes, total := AssembleLanes(laneCandidates, laneInflight, planned);
    LanesAddUp(planned, order, digest, count, None);
    UseBelowEnds(order, digest, count, None);
    UseIs(order, Builtin);
    var plan := Plan(epoch, window, windows, lanes, total);
    assert plan.lanes == PlanOf(sorted, snapshot.inflight, digest, count, window, windows, epoch).lanes;
    return Ok(plan), sorted;
  }

  lemma StartIsEmpty(sorted: seq<Candidate>, taken: seq<Inflight>, window: int, windows: map<Resource, int>)
    ensures StartOf(sorted, taken, window, windows).order == []
  {
  }

  lemma QueuesDomain(s: seq<Candidate>)
    ensures QueuesOf(s).Keys == ProjectsOf(s)
  {
  }

  // ---------------------------------------------------------------- what a plan guarantees

  // The admissions of all lanes.
  ghost function AllAdmissions(plan: Plan): seq<seq<Admission>> {
    seq(|plan.lanes|, l requires 0 <= l < |plan.lanes| => plan.lanes[l].admissions)
  }

  // The pools of the admissions that project p gets, in order.
  ghost function GrantedTo(plan: Plan, digest: Id -> nat, p: Id): seq<Resource>
    requires |plan.lanes| > 0
  {
    PoolsOf(plan.lanes[LaneFor(digest, p, |plan.lanes|)].admissions, p)
  }

  ghost function LevelOf(plan: Plan, digest: Id -> nat, taken: seq<Inflight>, p: Id): nat
    requires |plan.lanes| > 0
  {
    ProjectCount(taken, p) + |GrantedTo(plan, digest, p)|
  }

  ghost function RoomOf(windows: map<Resource, int>, taken: seq<Inflight>, pool: Resource): nat {
    Get(RoomsOf(windows, taken), pool)
  }

  // Project q has a candidate left whose pool has room left.
  ghost predicate CouldBeServed(plan: Plan, digest: Id -> nat, sorted: seq<Candidate>, taken: seq<Inflight>, windows: map<Resource, int>, q: Id)
    requires |plan.lanes| > 0
  {
    var k, queue := |GrantedTo(plan, digest, q)|, QueueOf(sorted, q);
    k < |queue| && LanesUse(AllAdmissions(plan), Some(queue[k].pool)) < RoomOf(windows, taken, queue[k].pool)
  }

  lemma {:induction false} LaneHasAll(order: seq<Admission>, digest: Id -> nat, count: nat, p: Id)
    requires count > 0
    ensures PoolsOf(LaneAdmissions(order, digest, count, LaneFor(digest, p, count)), p) == PoolsOf(order, p)
  {
    if order != [] {
      var rest, last, lane := order[..|order| - 1], order[|order| - 1], LaneFor(digest, p, count);
      LaneHasAll(rest, digest, count, p);
      var some := LaneAdmissions(rest, digest, count, lane);
      if LaneFor(digest, last.project, count) == lane {
        assert (some + [last])[..|some|] == some;
      } else {
        assert some + [] == some;
      }
    }
  }

  lemma StartIsFair(sorted: seq<Candidate>, taken: seq<Inflight>, window: int, windows: map<Resource, int>)
    ensures var f := StartOf(sorted, taken, window, windows); FilledFrom(Loads(taken), f, f)
  {
    var f := StartOf(sorted, taken, window, windows);
    forall p ensures Served(f, f, p) {
      if p in f.queues { assert f.queues[p][0..] == f.queues[p]; }
    }
  }

  lemma TurnHasAll(sorted: seq<Candidate>, epoch: nat)
    requires epoch > 0
    ensures forall q :: q in ProjectsOf(sorted) ==> q in Turn(sorted, epoch)
  {
    var ids := Listing(ProjectsOf(sorted));
    forall q | q in ProjectsOf(sorted) ensures q in Turn(sorted, epoch) {
      assert q in Elements(ids);
      var k := (epoch - 1) % |ids|;
      assert ids == ids[..k] + ids[k..];
    }
  }

  // What filling says of the lanes of the plan.
  lemma PlanOfFilled(sorted: seq<Candidate>, inflight: seq<Inflight>, digest: Id -> nat, count: nat, window: nat,
                     windows: map<Resource, int>, epoch: nat)
    requires count > 0 && epoch > 0
    ensures var f := Filled(sorted, inflight, window, windows, epoch);
            var plan := PlanOf(sorted, inflight, digest, count, window, windows, epoch);
            && |plan.lanes| == count && plan.total == |f.order|
            && (forall p :: GrantedTo(plan, digest, p) == PoolsOf(f.order, p))
            && (forall c :: LanesUse(AllAdmissions(plan), Some(c)) == PoolUse(f.order, c))
  {
    hide Filled, Use, PoolsOf, PoolUse, LanesUse;
    var f := Filled(sorted, inflight, window, windows, epoch);
    var plan := PlanOf(sorted, inflight, digest, count, window, windows, epoch);
    forall p ensures GrantedTo(plan, digest, p) == PoolsOf(f.order, p) {
      LaneHasAll(f.order, digest, count, p);
    }
    forall c ensures LanesUse(AllAdmissions(plan), Some(c)) == PoolUse(f.order, c) {
      LanesAddUp(AllAdmissions(plan), f.order, digest, count, Some(c));
      UseBelowEnds(f.order, digest, count, Some(c));
      UseIs(f.order, c);
    }
  }

  lemma FilledIsFair(sorted: seq<Candidate>, inflight: seq<Inflight>, window: int, windows: map<Resource, int>, epoch: nat)
    requires epoch > 0
    ensures var taken := Distinct(inflight);
            var f := Filled(sorted, inflight, window, windows, epoch);
            FilledFrom(Loads(taken), StartOf(sorted, taken, window, windows), f) && (f.room == 0 || forall q :: !Open(f, q))
  {
    hide FilledFrom, Loads, Fill;
    var taken := Distinct(inflight);
    StartIsFair(sorted, taken, window, windows);
    TurnHasAll(sorted, epoch);
    QueuesDomain(sorted);
    FillIsFair(Loads(taken), Turn(sorted, epoch), StartOf(sorted, taken, window, windows), StartOf(sorted, taken, window, windows));
  }

  lemma LoadsCount(taken: seq<Inflight>, p: Id)
    ensures Get(Loads(taken), p) == ProjectCount(taken, p)
  {
    if p !in Loads(taken) { NoLoad(taken, p); }
  }

  // What project p got, in terms of the filling.
  lemma GrantedIs(sorted: seq<Candidate>, inflight: seq<Inflight>, digest: Id -> nat, count: nat, window: nat,
                  windows: map<Resource, int>, epoch: nat, p: Id)
    requires count > 0 && epoch > 0
    ensures var f := Filled(sorted, inflight, window, windows, epoch);
            var plan := PlanOf(sorted, inflight, digest, count, window, windows, epoch);
            && |plan.lanes| == count
            && |GrantedTo(plan, digest, p)| == Get(f.granted, p) <= |QueueOf(sorted, p)|
            && GrantedTo(plan, digest, p) == Pools(QueueOf(sorted, p)[..Get(f.granted, p)])
            && LevelOf(plan, digest, Distinct(inflight), p) == Level(Loads(Distinct(inflight)), f, p)
            && (CouldBeServed(plan, digest, sorted, Distinct(inflight), windows, p) <==> Open(f, p))
  {
    hide Filled, PlanOf, Fair, PoolsOf, PoolUse, LanesUse, Distinct, Loads, QueueOf;
    var f := Filled(sorted, inflight, window, windows, epoch);
    FilledIsFair(sorted, inflight, window, windows, epoch);
    PlanOfFilled(sorted, inflight, digest, count, window, windows, epoch);
    LoadsCount(Distinct(inflight), p);
    assert Served(StartOf(sorted, Distinct(inflight), window, windows), f, p);
    if p !in ProjectsOf(sorted) {
      NoQueue(sorted, p);
    }
  }

  // Every plan: each project is served from the head of its queue; neither the global window nor a pool
  // window is exceeded; whoever was granted anything is at most one level above every project that could
  // still be served; and planning stops only when the window is used up or nobody could be served.
  lemma PlanIsFair(sorted: seq<Candidate>, inflight: seq<Inflight>, digest: Id -> nat, count: nat, window: nat,
                   windows: map<Resource, int>, epoch: nat)
    requires count > 0 && epoch > 0
    ensures var plan := PlanOf(sorted, inflight, digest, count, window, windows, epoch);
            var taken := Distinct(inflight);
            && |plan.lanes| == count
            && (forall p :: |GrantedTo(plan, digest, p)| <= |QueueOf(sorted, p)|
                            && GrantedTo(plan, digest, p) == Pools(QueueOf(sorted, p)[..|GrantedTo(plan, digest, p)|]))
            && plan.total <= AtLeastZero(window - |taken|)
            && (forall c :: LanesUse(AllAdmissions(plan), Some(c)) <= RoomOf(windows, taken, c))
            && (forall p, q :: GrantedTo(plan, digest, p) != [] && CouldBeServed(plan, digest, sorted, taken, windows, q) ==>
                  LevelOf(plan, digest, taken, p) <= LevelOf(plan, digest, taken, q) + 1)
            && (plan.total == AtLeastZero(window - |taken|) || forall q :: !CouldBeServed(plan, digest, sorted, taken, windows, q))
  {
    hide Filled, PlanOf, Served, Distinct, Loads, GrantedTo, LevelOf, CouldBeServed, Open, Level, PoolUse, LanesUse, QueueOf, PoolsOf;
    FilledIsFair(sorted, inflight, window, windows, epoch);
    PlanOfFilled(sorted, inflight, digest, count, window, windows, epoch);
    forall p {
      GrantedIs(sorted, inflight, digest, count, window, windows, epoch, p);
    }
  }
}
