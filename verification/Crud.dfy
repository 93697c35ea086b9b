/**
 `api/crud.py`: the dependency graph under every history of create, update and delete, and
 what it guarantees a trigger.
 */
module Crud {
  import opened Collections
  import opened Runs
  import Trigger
  import Cascade

  type UserId = int

  datatype JobInfo = JobInfo(owner: UserId, name: string)

  datatype Catalog = Catalog(jobs: map<JobId, JobInfo>, edges: seq<Edge>, next: JobId)

  const EMPTY := Catalog(map[], [], 0)

  /** `_validate_dependencies`: `job` is None while the job is being created. */
  predicate DependenciesValid(jobs: map<JobId, JobInfo>, job: Option<JobId>, owner: UserId, dependsOn: seq<JobId>) {
    && (job.Some? ==> job.value !in dependsOn)
    && (forall d :: d in dependsOn ==> d in jobs && jobs[d].owner == owner)
  }

  predicate NameTaken(jobs: map<JobId, JobInfo>, owner: UserId, name: string) {
    exists j :: j in jobs && jobs[j] == JobInfo(owner, name)
  }

  function EdgesTo(job: JobId, deps: seq<JobId>): (r: seq<Edge>)
    ensures |r| == |deps| && forall i :: 0 <= i < |deps| ==> r[i] == Edge(job, deps[i])
  {
    seq(|deps|, i requires 0 <= i < |deps| => Edge(job, deps[i]))
  }

  /** The rows that stay when those of job `j` (or also those pointing at it) are deleted. */
  function Without(edges: seq<Edge>, j: JobId, targets: bool): (r: seq<Edge>)
    ensures forall e :: e in r <==> e in edges && e.job != j && !(targets && e.dep == j)
  {
    if edges == [] then []
    else
      var e := edges[|edges| - 1];
      var front := Without(edges[..|edges| - 1], j, targets);
      if e.job != j && !(targets && e.dep == j) then front + [e] else front
  }

  /** `_set_dependencies` */
  function SetEdges(edges: seq<Edge>, job: JobId, dependsOn: seq<JobId>): seq<Edge> {
    Without(edges, job, false) + EdgesTo(job, Distinct(dependsOn))
  }

  datatype Op =
    | Create(owner: UserId, name: string, deps: seq<JobId>)
    | Update(caller: UserId, job: JobId, dependsOn: Option<seq<JobId>>, payloadValid: bool)
    | Delete(caller: UserId, job: JobId)

  /** The catalog after a request; rejected requests (409, 404, 400) leave it as it was. */
  function Apply(c: Catalog, op: Op): Catalog {
    match op
    case Create(owner, name, dependsOn) =>
      if NameTaken(c.jobs, owner, name) || !DependenciesValid(c.jobs, None, owner, dependsOn) then c
      else Catalog(c.jobs[c.next := JobInfo(owner, name)], SetEdges(c.edges, c.next, dependsOn), c.next + 1)
    case Update(caller, job, dependsOn, payloadValid) =>
      if job !in c.jobs || c.jobs[job].owner != caller then c
      else if dependsOn.Some? && !DependenciesValid(c.jobs, Some(job), caller, dependsOn.value) then c
      else if !payloadValid || dependsOn.None? then c
      else c.(edges := SetEdges(c.edges, job, dependsOn.value))
    case Delete(caller, job) =>
      if job !in c.jobs || c.jobs[job].owner != caller then c
      else c.(jobs := c.jobs - {job}, edges := Without(c.edges, job, true))
  }

  function ApplyAll(ops: seq<Op>): Catalog {
    if ops == [] then EMPTY else Apply(ApplyAll(ops[..|ops| - 1]), ops[|ops| - 1])
  }

  // ------------------------------------------------------- the graph invariant

  ghost predicate EdgeOk(c: Catalog, e: Edge) {
    && e.job in c.jobs && e.dep in c.jobs && e.job != e.dep
    && c.jobs[e.job].owner == c.jobs[e.dep].owner
  }

  ghost predicate GraphOk(c: Catalog) {
    && (forall j :: j in c.jobs ==> j < c.next)
    && (forall e :: e in c.edges ==> EdgeOk(c, e))
    && NoDuplicates(c.edges)
  }

  lemma {:induction false} WithoutDistinct(edges: seq<Edge>, j: JobId, targets: bool)
    requires NoDuplicates(edges)
    ensures NoDuplicates(Without(edges, j, targets))
  {
    if edges != [] {
      var front, e := edges[..|edges| - 1], edges[|edges| - 1];
      WithoutDistinct(front, j, targets);
      assert e !in front;
    }
  }

  lemma SetEdgesOk(edges: seq<Edge>, job: JobId, dependsOn: seq<JobId>)
    requires NoDuplicates(edges)
    ensures NoDuplicates(SetEdges(edges, job, dependsOn))
    ensures forall e :: e in SetEdges(edges, job, dependsOn) <==>
              (e in edges && e.job != job) || (e.job == job && e.dep in dependsOn)
  {
    WithoutDistinct(edges, job, false);
    var kept, added := Without(edges, job, false), EdgesTo(job, Distinct(dependsOn));
    assert forall e :: e in added ==> e.job == job && e.dep in Distinct(dependsOn);
    forall d | d in dependsOn ensures Edge(job, d) in added {
      var i :| 0 <= i < |Distinct(dependsOn)| && Distinct(dependsOn)[i] == d;
      assert added[i] == Edge(job, d);
    }
    forall i, k | 0 <= i < k < |kept + added| ensures (kept + added)[i] != (kept + added)[k] {
      if i < |kept| <= k { assert (kept + added)[i] in kept; }
    }
  }

  lemma GraphOkStep(c: Catalog, op: Op)
    requires GraphOk(c)
    ensures GraphOk(Apply(c, op))
  {
    match op
    case Create(_, _, dependsOn) => SetEdgesOk(c.edges, c.next, dependsOn);
    case Update(_, job, dependsOn, _) => if dependsOn.Some? { SetEdgesOk(c.edges, job, dependsOn.value); }
    case Delete(_, job) => WithoutDistinct(c.edges, job, true);
  }

  /** Edges join existing jobs of one owner, with no self-edge and no duplicate, in every history. */
  lemma {:induction false} GraphAlwaysOk(ops: seq<Op>)
    ensures GraphOk(ApplyAll(ops))
  {
    if ops != [] {
      GraphAlwaysOk(ops[..|ops| - 1]);
      GraphOkStep(ApplyAll(ops[..|ops| - 1]), ops[|ops| - 1]);
    }
  }

  // ------------------------------------------------------- what each request does

  ghost predicate CreateOk(c: Catalog, owner: UserId, name: string, deps: seq<JobId>, c': Catalog) {
    if (forall j :: j in c.jobs ==> c.jobs[j] != JobInfo(owner, name))
       && (forall d :: d in deps ==> d in c.jobs && c.jobs[d].owner == owner)
    then
      && c'.jobs == c.jobs[c.next := JobInfo(owner, name)] && c'.next == c.next + 1
      && (forall e :: e in c'.edges <==> e in c.edges || (e.job == c.next && e.dep in deps))
    else c' == c
  }

  ghost predicate UpdateOk(c: Catalog, caller: UserId, job: JobId, dependsOn: Option<seq<JobId>>, valid: bool,
                           c': Catalog) {
    if job in c.jobs && c.jobs[job].owner == caller && valid
       && (dependsOn.Some? ==> job !in dependsOn.value)
       && (dependsOn.Some? ==> forall d :: d in dependsOn.value ==> d in c.jobs && c.jobs[d].owner == caller)
    then
      && c'.jobs == c.jobs && c'.next == c.next
      && (dependsOn.None? ==> c'.edges == c.edges)
      && (dependsOn.Some? ==> forall e :: e in c'.edges <==>
            if e.job == job then e.dep in dependsOn.value else e in c.edges)
    else c' == c
  }

  ghost predicate DeleteOk(c: Catalog, caller: UserId, job: JobId, c': Catalog) {
    if job in c.jobs && c.jobs[job].owner == caller
    then
      && c'.jobs == c.jobs - {job} && c'.next == c.next
      && (forall e :: e in c'.edges <==> e in c.edges && e.job != job && e.dep != job)
    else c' == c
  }

  /**
   After any history: a create is accepted exactly if the owner has no job of that name and owns
   every dependency; an update exactly if the caller owns the job and every dependency, and the
   job is not its own dependency; a delete exactly if the caller owns the job. The edges are then
   exactly the requested ones beside the untouched ones. Every other request changes nothing.
   */
  lemma {:induction false} RequestsExact(ops: seq<Op>, op: Op)
    ensures var c := ApplyAll(ops); var c' := Apply(c, op);
            match op
            case Create(owner, name, deps) => CreateOk(c, owner, name, deps, c')
            case Update(caller, job, dependsOn, valid) => UpdateOk(c, caller, job, dependsOn, valid, c')
            case Delete(caller, job) => DeleteOk(c, caller, job, c')
  {
    var c := ApplyAll(ops);
    GraphAlwaysOk(ops);
    match op
    case Create(_, _, deps) => SetEdgesOk(c.edges, c.next, deps);
    case Update(_, job, dependsOn, _) => if dependsOn.Some? { SetEdgesOk(c.edges, job, dependsOn.value); }
    case Delete(_, _) =>
  }

  /** No owner ever has two jobs of one name. */
  lemma {:induction false} NamesUnique(ops: seq<Op>, j: JobId, k: JobId)
    requires j != k && j in ApplyAll(ops).jobs && k in ApplyAll(ops).jobs
    ensures ApplyAll(ops).jobs[j] != ApplyAll(ops).jobs[k]
  {
    if ops != [] {
      var front := ops[..|ops| - 1];
      RequestsExact(front, ops[|ops| - 1]);
      if j in ApplyAll(front).jobs && k in ApplyAll(front).jobs { NamesUnique(front, j, k); }
      GraphAlwaysOk(front);
    }
  }

  // ------------------------------------------------------- what a trigger may rely on

  lemma {:induction false} PathOwner(c: Catalog, p: seq<JobId>)
    requires GraphOk(c) && Trigger.IsPath(c.edges, p) && p[0] in c.jobs
    ensures p[|p| - 1] in c.jobs && c.jobs[p[|p| - 1]].owner == c.jobs[p[0]].owner
  {
    if |p| > 1 {
      assert EdgeOk(c, Edge(p[0], p[1]));
      assert forall i :: 0 <= i < |p[1..]| ==> p[1..][i] == p[i + 1];
      PathOwner(c, p[1..]);
    }
  }

  /** The whole recursive closure of a trigger creates runs only for jobs of the caller. */
  lemma {:induction false} TriggerStaysWithOwner(ops: seq<Op>, runs: seq<Run>, job: JobId, now: real, b: nat)
    requires var c := ApplyAll(ops); job in c.jobs
    requires var plan := Trigger.TriggerPlan(ApplyAll(ops).edges, runs, job, now);
             plan.Plan? && |runs| <= b < |plan.runs|
    ensures var c := ApplyAll(ops); var row := Trigger.TriggerPlan(c.edges, runs, job, now).runs[b];
            row.job in c.jobs && c.jobs[row.job].owner == c.jobs[job].owner
  {
    var c := ApplyAll(ops);
    var plan := Trigger.TriggerPlan(c.edges, runs, job, now);
    GraphAlwaysOk(ops);
    Trigger.TriggerPlanCorrect(c.edges, runs, job, now, plan);
    assert Trigger.NewRowOk(c.edges, runs, job, now, plan, b);
    ClosureOwner(c, runs, job, plan.runs[b].job);
  }

  lemma ClosureOwner(c: Catalog, runs: seq<Run>, job: JobId, v: JobId)
    requires GraphOk(c) && job in c.jobs && Trigger.InClosure(c.edges, runs, job, v)
    ensures v in c.jobs && c.jobs[v].owner == c.jobs[job].owner
  {
    if v != job {
      var d :| d in Deps(c.edges, job) && Trigger.Reaches(c.edges, runs, d, v);
      assert EdgeOk(c, Edge(job, d));
      var p :| Trigger.InactivePath(c.edges, runs, d, v, p);
      PathOwner(c, p);
    }
  }

  // ------------------------------------------------------- acyclic unless dependencies are updated

  ghost predicate NeverRewires(ops: seq<Op>) {
    forall i :: 0 <= i < |ops| && ops[i].Update? ==> ops[i].dependsOn.None?
  }

  /** Every dependency is older than its dependent. */
  ghost predicate OlderFirst(c: Catalog) {
    forall e :: e in c.edges ==> e.dep < e.job < c.next
  }

  lemma {:induction false} NeverRewiredIsOlderFirst(ops: seq<Op>)
    requires NeverRewires(ops)
    ensures OlderFirst(ApplyAll(ops))
  {
    if ops != [] {
      var front, op := ops[..|ops| - 1], ops[|ops| - 1];
      NeverRewiredIsOlderFirst(front);
      GraphAlwaysOk(front);
      if op.Create? { SetEdgesOk(ApplyAll(front).edges, ApplyAll(front).next, op.deps); }
    }
  }

  lemma {:induction false} PathDescends(c: Catalog, p: seq<JobId>, i: nat)
    requires OlderFirst(c) && Trigger.IsPath(c.edges, p) && i < |p| - 1
    ensures p[|p| - 1] < p[i]
    decreases |p| - i
  {
    assert Edge(p[i], p[i + 1]) in c.edges;
    if i + 1 < |p| - 1 { PathDescends(c, p, i + 1); }
  }

  /**
   Histories that never update `depends_on` keep the graph acyclic: no trigger reports a cycle,
   whatever runs exist, and every cascade ends.
   */
  lemma {:induction false} NeverRewiredIsAcyclic(ops: seq<Op>, runs: seq<Run>, job: JobId, now: real)
    requires NeverRewires(ops)
    ensures Trigger.TriggerPlan(ApplyAll(ops).edges, runs, job, now).Plan?
    ensures Cascade.Acyclic(ApplyAll(ops).edges, j => if j < ApplyAll(ops).next then ApplyAll(ops).next - j else 0)
  {
    var c := ApplyAll(ops);
    NeverRewiredIsOlderFirst(ops);
    forall p ensures !Trigger.CycleWalk(c.edges, runs, job, p) {
      if Trigger.CycleWalk(c.edges, runs, job, p) {
        var i :| 0 <= i < |p| - 1 && p[i] == p[|p| - 1];
        PathDescends(c, p, i);
      }
    }
    Trigger.CycleDetectionExact(c.edges, runs, job, now, Trigger.TriggerPlan(c.edges, runs, job, now));
  }

  // ------------------------------------------------------- exactly which updates keep it acyclic

  /** A path that returns to where it started. */
  ghost predicate Closed(edges: seq<Edge>, p: seq<JobId>) {
    Trigger.IsPath(edges, p) && |p| > 1 && p[0] == p[|p| - 1]
  }

  ghost predicate CycleFree(edges: seq<Edge>) {
    forall p :: !Closed(edges, p)
  }

  ghost predicate Connects(edges: seq<Edge>, a: JobId, b: JobId, p: seq<JobId>) {
    Trigger.IsPath(edges, p) && p[0] == a && p[|p| - 1] == b
  }

  ghost predicate Reachable(edges: seq<Edge>, a: JobId, b: JobId) {
    exists p :: Connects(edges, a, b, p)
  }

  /** The first position, from `from` on, at which the path meets `job`. */
  lemma FirstVisit(p: seq<JobId>, from: nat, job: JobId) returns (k: nat)
    requires from < |p| && p[|p| - 1] == job
    ensures from <= k < |p| && p[k] == job && forall i :: from <= i < k ==> p[i] != job
    decreases |p| - from
  {
    if p[from] == job {
      k := from;
    } else {
      k := FirstVisit(p, from + 1, job);
    }
  }

  /** A dependency that leads back to the job closes a cycle through it. */
  lemma BackPathCloses(edges: seq<Edge>, job: JobId, deps: seq<JobId>, p: seq<JobId>)
    requires NoDuplicates(edges) && p != [] && p[0] in deps && Connects(edges, p[0], job, p)
    ensures !CycleFree(SetEdges(edges, job, deps))
  {
    SetEdgesOk(edges, job, deps);
    var k := FirstVisit(p, 0, job);
    var q := [job] + p[..k + 1];
    assert forall i :: 0 <= i < |q| - 2 ==> Edge(p[i], p[i + 1]) in edges;
    assert Closed(SetEdges(edges, job, deps), q);
  }

  /** A closed path may be walked from any of its nodes. */
  lemma Rotate(edges: seq<Edge>, p: seq<JobId>, i: nat)
    requires Closed(edges, p) && i < |p| - 1
    ensures Closed(edges, p[i..] + p[1..i + 1]) && (p[i..] + p[1..i + 1])[0] == p[i]
  {
    var n := |p| - i;
    var q := p[i..] + p[1..i + 1];
    forall m | 0 <= m < |q| - 1 ensures Edge(q[m], q[m + 1]) in edges {
      if m < n - 1 {
        assert Edge(p[i + m], p[i + m + 1]) in edges;
      } else if m == n - 1 {
        assert q[m] == p[|p| - 1] == p[0] && q[m + 1] == p[1];
        assert Edge(p[0], p[0 + 1]) in edges;
      } else {
        assert q[m] == p[m - n + 1] && q[m + 1] == p[m - n + 2];
        assert Edge(p[m - n + 1], p[m - n + 1 + 1]) in edges;
      }
    }
    assert q[|q| - 1] == p[i];
  }

  /** Every cycle of the rewired graph goes through the job. */
  lemma NewCycleMeetsJob(edges: seq<Edge>, job: JobId, deps: seq<JobId>, p: seq<JobId>) returns (i: nat)
    requires NoDuplicates(edges) && CycleFree(edges) && Closed(SetEdges(edges, job, deps), p)
    ensures i < |p| - 1 && p[i] == job
  {
    SetEdgesOk(edges, job, deps);
    assert forall m :: 0 <= m < |p| - 1 && p[m] != job ==> Edge(p[m], p[m + 1]) in edges;
    assert !Closed(edges, p);
    i :| 0 <= i < |p| - 1 && p[i] == job;
  }

  /** So one of its new dependencies led back to it before. */
  lemma NewCycleNeedsBackPath(edges: seq<Edge>, job: JobId, deps: seq<JobId>, p: seq<JobId>)
    requires NoDuplicates(edges) && CycleFree(edges) && Closed(SetEdges(edges, job, deps), p)
    ensures exists d :: d in deps && Reachable(edges, d, job)
  {
    SetEdgesOk(edges, job, deps);
    var edges' := SetEdges(edges, job, deps);
    var i := NewCycleMeetsJob(edges, job, deps, p);
    Rotate(edges', p, i);
    var q := p[i..] + p[1..i + 1];
    var k := FirstVisit(q, 1, job);
    assert Edge(q[0], q[0 + 1]) in edges';
    var back := q[1..k + 1];
    forall m | 0 <= m < |back| - 1 ensures Edge(back[m], back[m + 1]) in edges {
      assert Edge(q[m + 1], q[m + 1 + 1]) in edges' && q[m + 1] != job;
    }
    assert Connects(edges, q[1], job, back);
  }

  /**
   Setting the dependencies of a job in an acyclic graph keeps it acyclic if and only if the job
   is not reachable from any of them. The code checks only that the job is not one of them.
   */
  lemma UpdateAcyclicIff(edges: seq<Edge>, job: JobId, deps: seq<JobId>)
    requires NoDuplicates(edges) && CycleFree(edges)
    ensures CycleFree(SetEdges(edges, job, deps)) <==> forall d :: d in deps ==> !Reachable(edges, d, job)
  {
    if d :| d in deps && Reachable(edges, d, job) {
      var p :| Connects(edges, d, job, p);
      BackPathCloses(edges, job, deps, p);
    } else {
      forall p ensures !Closed(SetEdges(edges, job, deps), p) {
        if Closed(SetEdges(edges, job, deps), p) { NewCycleNeedsBackPath(edges, job, deps, p); }
      }
    }
  }

  // ------------------------------------------------------- acyclic graphs have heights

  ghost predicate PathTo(edges: seq<Edge>, j: JobId, n: nat, p: seq<JobId>) {
    Trigger.IsPath(edges, p) && |p| == n && p[|p| - 1] == j
  }

  /** The length of a longest path to `j`, among those of at most `n` nodes. */
  ghost function LongestTo(edges: seq<Edge>, j: JobId, n: nat): (r: nat)
    ensures r <= n && (r > 0 ==> exists p :: PathTo(edges, j, r, p))
    ensures forall p :: |p| <= n && PathTo(edges, j, |p|, p) ==> |p| <= r
  {
    if n == 0 || exists p :: PathTo(edges, j, n, p) then n else LongestTo(edges, j, n - 1)
  }

  /** A path in an acyclic graph meets no node twice, so it is no longer than the graph is large. */
  lemma PathBounded(edges: seq<Edge>, p: seq<JobId>)
    requires CycleFree(edges) && Trigger.IsPath(edges, p)
    ensures |p| <= |Trigger.Sources(edges)| + 1
  {
    var q := p[..|p| - 1];
    forall i, k | 0 <= i < k < |q| ensures q[i] != q[k] { NoReturn(edges, p, i, k); }
    CountElems(q);
    forall x | x in q ensures x in Trigger.Sources(edges) {
      var i :| 0 <= i < |q| && q[i] == x;
      assert Edge(p[i], p[i + 1]) in edges;
    }
    SubsetSize(Elems(q), Trigger.Sources(edges));
  }

  lemma NoReturn(edges: seq<Edge>, p: seq<JobId>, i: nat, k: nat)
    requires CycleFree(edges) && Trigger.IsPath(edges, p) && i < k < |p|
    ensures p[i] != p[k]
  {
    var q := p[i..k + 1];
    forall m | 0 <= m < |q| - 1 ensures Edge(q[m], q[m + 1]) in edges {
      assert Edge(p[i + m], p[i + m + 1]) in edges;
    }
    assert !Closed(edges, q);
  }

  lemma {:induction false} LongerByEdge(edges: seq<Edge>, e: Edge)
    requires CycleFree(edges) && e in edges
    ensures var n := |Trigger.Sources(edges)| + 1; LongestTo(edges, e.job, n) < LongestTo(edges, e.dep, n)
  {
    var n := |Trigger.Sources(edges)| + 1;
    assert PathTo(edges, e.job, 1, [e.job]);
    var r := LongestTo(edges, e.job, n);
    var p :| PathTo(edges, e.job, r, p);
    var q := p + [e.dep];
    assert Trigger.IsPath(edges, p) && p[|p| - 1] == e.job;
    forall m | 0 <= m < |q| - 1 ensures Edge(q[m], q[m + 1]) in edges {
      if m < |p| - 1 { assert q[m] == p[m] && q[m + 1] == p[m + 1] && Edge(p[m], p[m + 1]) in edges; }
    }
    PathBounded(edges, q);
    assert PathTo(edges, e.dep, |q|, q);
  }

  lemma {:induction false} HeightsRise(edges: seq<Edge>, height: JobId -> nat, p: seq<JobId>)
    requires Cascade.Acyclic(edges, height) && Trigger.IsPath(edges, p) && |p| > 1
    ensures height(p[0]) < height(p[|p| - 1])
    decreases |p|
  {
    assert Edge(p[0], p[0 + 1]) in edges;
    if |p| > 2 {
      forall m | 0 <= m < |p[1..]| - 1 ensures Edge(p[1..][m], p[1..][m + 1]) in edges {
        assert Edge(p[m + 1], p[m + 1 + 1]) in edges;
      }
      HeightsRise(edges, height, p[1..]);
    }
  }

  /** A graph has no closed path if and only if a height falls along its edges, as cascades need to end. */
  lemma CycleFreeIffHeight(edges: seq<Edge>)
    ensures CycleFree(edges) <==> exists height :: Cascade.Acyclic(edges, height)
  {
    if CycleFree(edges) {
      var n := |Trigger.Sources(edges)| + 1;
      var height := j => LongestTo(edges, j, n);
      forall e | e in edges ensures height(e.job) < height(e.dep) { LongerByEdge(edges, e); }
      assert Cascade.Acyclic(edges, height);
    }
    if height :| Cascade.Acyclic(edges, height) {
      forall p ensures !Closed(edges, p) {
        if Closed(edges, p) { HeightsRise(edges, height, p); }
      }
    }
  }

  /** A walk that meets itself contains a cycle. */
  lemma WalkCloses(edges: seq<Edge>, runs: seq<Run>, job: JobId, p: seq<JobId>)
    requires Trigger.CycleWalk(edges, runs, job, p)
    ensures !CycleFree(edges)
  {
    var i :| 0 <= i < |p| - 1 && p[i] == p[|p| - 1];
    var q := p[i..];
    forall m | 0 <= m < |q| - 1 ensures Edge(q[m], q[m + 1]) in edges {
      assert Edge(p[i + m], p[i + m + 1]) in edges;
    }
    assert Closed(edges, q);
  }

  /** On an acyclic graph no trigger reports a cycle, whatever runs exist. */
  lemma CycleFreeTriggers(edges: seq<Edge>, runs: seq<Run>, job: JobId, now: real)
    requires CycleFree(edges)
    ensures Trigger.TriggerPlan(edges, runs, job, now).Plan?
  {
    forall p ensures !Trigger.CycleWalk(edges, runs, job, p) {
      if Trigger.CycleWalk(edges, runs, job, p) { WalkCloses(edges, runs, job, p); }
    }
    Trigger.CycleDetectionExact(edges, runs, job, now, Trigger.TriggerPlan(edges, runs, job, now));
  }

  const TWO_CYCLE: seq<Edge> := [Edge(1, 0), Edge(0, 1)]

  lemma TwoCycleWalk(runs: seq<Run>, j: JobId)
    requires (j == 0 || j == 1) && !HasActive(runs, 0) && !HasActive(runs, 1)
    ensures Trigger.CycleWalk(TWO_CYCLE, runs, j, [j, 1 - j, j])
  {
    var p := [j, 1 - j, j];
    assert TWO_CYCLE[0] == Edge(1, 0) && TWO_CYCLE[1] == Edge(0, 1);
    assert Edge(1, 0) in TWO_CYCLE && Edge(0, 1) in TWO_CYCLE;
    assert Trigger.IsPath(TWO_CYCLE, p);
    assert p[1..] == [1 - j, j] && Trigger.AllInactive(runs, p[1..]);
    assert p[..2] == [j, 1 - j] && p[..2][0] == p[2];
  }

  /** Whatever runs there are, if neither job is active. */
  lemma TwoCycleIsReported(runs: seq<Run>, j: JobId, now: real)
    requires (j == 0 || j == 1) && !HasActive(runs, 0) && !HasActive(runs, 1)
    ensures Trigger.TriggerPlan(TWO_CYCLE, runs, j, now).Cyclic?
  {
    TwoCycleWalk(runs, j);
    Trigger.CycleDetectionExact(TWO_CYCLE, runs, j, now, Trigger.TriggerPlan(TWO_CYCLE, runs, j, now));
  }

  lemma ThreeOps(a: Op, b: Op, c: Op)
    ensures ApplyAll([a, b, c]) == Apply(Apply(Apply(EMPTY, a), b), c)
  {
    assert [a, b, c][..2] == [a, b] && [a, b][..1] == [a] && [a][..0] == [];
    assert ApplyAll([a]) == Apply(EMPTY, a);
    assert ApplyAll([a, b]) == Apply(Apply(EMPTY, a), b);
  }

  lemma TwoJobs()
    ensures Apply(Apply(EMPTY, Create(7, "a", [])), Create(7, "b", [0]))
         == TWO_JOBS
  {
    assert Apply(EMPTY, Create(7, "a", [])) == Catalog(map[0 := JobInfo(7, "a")], [], 1);
  }

  const REWIRE := [Create(7, "a", []), Create(7, "b", [0]), Update(7, 0, Some([1]), true)]

  const TWO_JOBS := Catalog(map[0 := JobInfo(7, "a"), 1 := JobInfo(7, "b")], [Edge(1, 0)], 2)

  lemma RewiredEdges()
    ensures SetEdges([Edge(1, 0)], 0, [1]) == TWO_CYCLE
  {
    assert Without([Edge(1, 0)][..0], 0, false) == [];
    assert Without([Edge(1, 0)], 0, false) == [Edge(1, 0)];
    assert Distinct([1][..0]) == [];
    assert Distinct([1]) == [1] && EdgesTo(0, [1]) == [Edge(0, 1)];
  }

  lemma RewiringAccepted()
    ensures Apply(TWO_JOBS, Update(7, 0, Some([1]), true)).edges == SetEdges([Edge(1, 0)], 0, [1])
  {
    assert DependenciesValid(TWO_JOBS.jobs, Some(0), 7, [1]);
  }

  lemma Rewired()
    ensures ApplyAll(REWIRE).edges == TWO_CYCLE
  {
    ThreeOps(Create(7, "a", []), Create(7, "b", [0]), Update(7, 0, Some([1]), true));
    TwoJobs();
    RewiringAccepted();
    RewiredEdges();
  }

  /**
   Updating `depends_on` can close a cycle, as only the job itself is checked for; every trigger
   of either job is then refused, whatever runs there are, unless one of the two is active.
   */
  lemma UpdateCanCloseCycle(runs: seq<Run>, j: JobId, now: real)
    requires (j == 0 || j == 1) && !HasActive(runs, 0) && !HasActive(runs, 1)
    ensures ApplyAll(REWIRE).edges == TWO_CYCLE && Trigger.TriggerPlan(ApplyAll(REWIRE).edges, runs, j, now).Cyclic?
  {
    Rewired();
    TwoCycleIsReported(runs, j, now);
  }

  // ------------------------------------------------------- the code

  class JobCatalog {
    var jobs: map<JobId, JobInfo>
    var edges: seq<Edge>
    var next: JobId

    ghost function View(): Catalog
      reads this
    {
      Catalog(jobs, edges, next)
    }

    constructor ()
      ensures View() == EMPTY
    {
      jobs, edges, next := map[], [], 0;
    }

    /** `_set_dependencies`: drop the job's rows, then add one per distinct dependency. */
    method SetDependencies(job: JobId, dependsOn: seq<JobId>)
      modifies this`edges
      ensures edges == SetEdges(old(edges), job, dependsOn)
    {
      edges := Without(edges, job, false);
      var kept := edges;
      var deps := Distinct(dependsOn);
      for i := 0 to |deps|
        invariant edges == kept + EdgesTo(job, deps)[..i]
      {
        edges := edges + [Edge(job, deps[i])];
      }
    }

    method CreateJob(owner: UserId, name: string, dependsOn: seq<JobId>) returns (job: Option<JobId>)
      modifies this
      ensures View() == Apply(old(View()), Create(owner, name, dependsOn))
      ensures job == if NameTaken(old(jobs), owner, name) || !DependenciesValid(old(jobs), None, owner, dependsOn)
                     then None
                     else Some(old(next))
    {
      if NameTaken(jobs, owner, name) { return None; }
      if !DependenciesValid(jobs, None, owner, dependsOn) { return None; }
      job := Some(next);
      jobs := jobs[next := JobInfo(owner, name)];
      next := next + 1;
      SetDependencies(job.value, dependsOn);
    }

    method UpdateJob(caller: UserId, job: JobId, dependsOn: Option<seq<JobId>>, payloadValid: bool) returns (ok: bool)
      modifies this
      ensures View() == Apply(old(View()), Update(caller, job, dependsOn, payloadValid))
      ensures ok <==>
                && job in old(jobs) && old(jobs)[job].owner == caller && payloadValid
                && (dependsOn.Some? ==> job !in dependsOn.value)
                && (dependsOn.Some? ==>
                      forall d :: d in dependsOn.value ==> d in old(jobs) && old(jobs)[d].owner == caller)
    {
      if job !in jobs || jobs[job].owner != caller { return false; }
      if dependsOn.Some? && !DependenciesValid(jobs, Some(job), jobs[job].owner, dependsOn.value) { return false; }
      if !payloadValid { return false; }
      if dependsOn.Some? { SetDependencies(job, dependsOn.value); }
      ok := true;
    }

    method DeleteJob(caller: UserId, job: JobId) returns (ok: bool)
      modifies this
      ensures View() == Apply(old(View()), Delete(caller, job))
      ensures ok <==> job in old(jobs) && old(jobs)[job].owner == caller
      ensures ok ==> job !in jobs && forall e :: e in edges ==> e.job != job && e.dep != job
    {
      if job !in jobs || jobs[job].owner != caller { return false; }
      jobs := jobs - {job};
      edges := Without(edges, job, true);
      ok := true;
    }
  }
}
