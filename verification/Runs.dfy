/**
 The rows every process reads and writes: jobs, dependency edges and runs.

 A run's primary key is its position in the `job_runs` table, so ids are unique and
 increasing, and rows are never removed (job deletion is outside this module).
 */
module Runs {

  datatype Option<+T> = None | Some(value: T)

  type JobId = int
  type RunId = nat

  datatype Status = Pending | Queued | Running | Succeeded | Failed | TimedOut | Canceled

  /** The three statuses that count as an active run of a job. */
  predicate Active(s: Status) {
    s.Pending? || s.Queued? || s.Running?
  }

  /** Statuses of a run that has been handed to the stream. */
  predicate Dispatched(s: Status) {
    s.Queued? || s.Running?
  }

  predicate Terminal(s: Status) {
    !Active(s)
  }

  /** The documented order pending -> queued -> running -> terminal. */
  function Rank(s: Status): nat {
    match s
    case Pending => 0
    case Queued => 1
    case Running => 2
    case _ => 3
  }

  /**
   The code path that inserted a row. It refines the `trigger_type` column (Manual is
   "manual"; Planned and FannedOut are "dependency"; the two retries are "retry") and
   carries the `scheduled_for` column of a scheduled run.
   */
  datatype Origin =
    | Manual
    | Planned
    | FannedOut
    | Scheduled(tick: int)
    | AutoRetry(parent: RunId)
    | ApiRetry(parent: RunId)

  datatype Run = Run(job: JobId, origin: Origin, status: Status, attempt: nat, createdAt: real)

  /** One `job_dependencies` row: `job` runs only after `dep` has succeeded. */
  datatype Edge = Edge(job: JobId, dep: JobId)

  /** `scheduled`: its schedule type is cron or interval. */
  datatype Job = Job(enabled: bool, scheduled: bool, maxRetries: nat, backoffSec: nat)

  /** What the database knows about jobs. The protocol never changes it. */
  datatype Config = Config(jobs: map<JobId, Job>, edges: seq<Edge>)

  /** `_dependency_ids`, in table order. */
  function Deps(edges: seq<Edge>, j: JobId): (r: seq<JobId>)
    ensures forall d :: d in r <==> Edge(j, d) in edges
  {
    if edges == [] then []
    else if edges[0].job == j then [edges[0].dep] + Deps(edges[1..], j)
    else Deps(edges[1..], j)
  }

  /** Jobs that depend on `j`, in table order. */
  function Dependents(edges: seq<Edge>, j: JobId): (r: seq<JobId>)
    ensures forall d :: d in r <==> Edge(d, j) in edges
  {
    if edges == [] then []
    else if edges[0].dep == j then [edges[0].job] + Dependents(edges[1..], j)
    else Dependents(edges[1..], j)
  }

  /** `dict.fromkeys`: first occurrences, in order. */
  function Distinct(s: seq<JobId>): (r: seq<JobId>)
    ensures forall x :: x in r <==> x in s
    ensures forall i, k :: 0 <= i < k < |r| ==> r[i] != r[k]
  {
    if s == [] then []
    else
      var before := Distinct(s[..|s| - 1]);
      if s[|s| - 1] in before then before else before + [s[|s| - 1]]
  }

  function FirstAt(s: seq<JobId>, x: JobId): (i: nat)
    requires x in s
    ensures i < |s| && s[i] == x && forall q :: 0 <= q < i ==> s[q] != x
  {
    if x in s[..|s| - 1] then FirstAt(s[..|s| - 1], x) else |s| - 1
  }

  lemma {:induction false} FirstAtUnique(s: seq<JobId>, x: JobId, i: nat)
    requires i < |s| && s[i] == x && forall q :: 0 <= q < i ==> s[q] != x
    ensures FirstAt(s, x) == i
  {}

  /** Elements come in the order of their first occurrences. */
  lemma {:induction false} DistinctKeepsOrder(s: seq<JobId>, i: nat, k: nat)
    requires i < k < |Distinct(s)|
    ensures Distinct(s)[i] in s && Distinct(s)[k] in s
    ensures FirstAt(s, Distinct(s)[i]) < FirstAt(s, Distinct(s)[k])
  {
    var front, last := s[..|s| - 1], s[|s| - 1];
    var before := Distinct(front);
    var x, y := Distinct(s)[i], Distinct(s)[k];
    assert x in before && x in front;
    FirstAtFront(s, x);
    if k < |before| {
      DistinctKeepsOrder(front, i, k);
      FirstAtFront(s, y);
    } else {
      FirstAtUnique(s, y, |s| - 1);
    }
  }

  lemma {:induction false} FirstAtFront(s: seq<JobId>, x: JobId)
    requires s != [] && x in s[..|s| - 1]
    ensures FirstAt(s, x) == FirstAt(s[..|s| - 1], x) < |s| - 1
  {
    FirstAtUnique(s, x, FirstAt(s[..|s| - 1], x));
  }

  // -------------------------------------------------------------- queries

  predicate HasActive(runs: seq<Run>, j: JobId) {
    exists r :: 0 <= r < |runs| && runs[r].job == j && Active(runs[r].status)
  }

  /** `_has_dispatched_run` */
  predicate HasDispatched(runs: seq<Run>, j: JobId) {
    exists r :: 0 <= r < |runs| && runs[r].job == j && Dispatched(runs[r].status)
  }

  predicate HasSucceeded(runs: seq<Run>, j: JobId) {
    exists r :: 0 <= r < |runs| && runs[r].job == j && runs[r].status == Succeeded
  }

  /** `_all_dependencies_succeeded` */
  predicate AllDependenciesSucceeded(edges: seq<Edge>, runs: seq<Run>, j: JobId) {
    forall d :: d in Deps(edges, j) ==> HasSucceeded(runs, d)
  }

  /** A row for this tick of the job exists: the (job_id, scheduled_for) pair is unique. */
  predicate TickTaken(runs: seq<Run>, job: JobId, tick: int) {
    exists r :: 0 <= r < |runs| && runs[r].job == job && runs[r].origin == Scheduled(tick)
  }

  /** Row `r` is the first, by (created_at, id), of job `j` whose status is in `allowed`. */
  ghost predicate IsOldest(runs: seq<Run>, j: JobId, allowed: set<Status>, r: RunId) {
    && r < |runs| && runs[r].job == j && runs[r].status in allowed
    && (forall k :: 0 <= k < |runs| && runs[k].job == j && runs[k].status in allowed ==>
          runs[r].createdAt < runs[k].createdAt || (runs[r].createdAt == runs[k].createdAt && r <= k))
  }

  function Oldest(runs: seq<Run>, j: JobId, allowed: set<Status>): (r: Option<RunId>)
    ensures r.None? ==> forall k :: 0 <= k < |runs| && runs[k].job == j ==> runs[k].status !in allowed
    ensures r.Some? ==> IsOldest(runs, j, allowed, r.value)
  {
    if runs == [] then None
    else
      var n := |runs| - 1;
      var before := Oldest(runs[..n], j, allowed);
      if runs[n].job != j || runs[n].status !in allowed then before
      else if before.Some? && runs[before.value].createdAt <= runs[n].createdAt then before
      else Some(n)
  }

  /** `_active_run` */
  function ActiveRun(runs: seq<Run>, j: JobId): (r: Option<RunId>)
    ensures r.Some? <==> HasActive(runs, j)
    ensures r.Some? ==> r.value < |runs| && runs[r.value].job == j && Active(runs[r.value].status)
    ensures r.Some? ==> IsOldest(runs, j, {Pending, Queued, Running}, r.value)
  {
    Oldest(runs, j, {Pending, Queued, Running})
  }

  /** `_pending_run` */
  function PendingRun(runs: seq<Run>, j: JobId): (r: Option<RunId>)
    ensures r.None? ==> forall k :: 0 <= k < |runs| && runs[k].job == j ==> runs[k].status != Pending
    ensures r.Some? ==> r.value < |runs| && runs[r.value].job == j && runs[r.value].status == Pending
    ensures r.Some? ==> IsOldest(runs, j, {Pending}, r.value)
  {
    Oldest(runs, j, {Pending})
  }

  // ------------------------------------------------- how the table evolves

  /** What no transaction may undo: rows stay, identities stay, status rank never falls. */
  ghost predicate Grows(runs: seq<Run>, runs': seq<Run>) {
    && |runs| <= |runs'|
    && (forall r :: 0 <= r < |runs| ==>
          && runs'[r].job == runs[r].job
          && runs'[r].origin == runs[r].origin
          && runs'[r].attempt == runs[r].attempt
          && runs'[r].createdAt == runs[r].createdAt
          && Rank(runs[r].status) <= Rank(runs'[r].status)
          && (runs[r].status == Canceled ==> runs'[r].status == Canceled))
  }
}
