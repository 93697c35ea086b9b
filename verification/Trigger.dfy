/**
 `trigger_job` and `_prepare_trigger_run`: a depth-first search over the dependency graph
 whose "finished" colour is "has an active run" and whose "in progress" colour is the stack.

 `Prepare` and `PrepareAll` are the search as functions of the `job_runs` table; the class
 at the end is the code's own form, proved equal to them. In between: what the search means.
 */
module Trigger {
  import opened Collections
  import opened Runs

  /** Either the 409 with its cycle, or the table after the search and the rows to publish. */
  datatype Plan =
    | Cyclic(path: seq<JobId>)
    | Plan(runs: seq<Run>, publish: seq<RunId>, run: RunId)

  function Sources(edges: seq<Edge>): set<JobId> {
    set e | e in edges :: e.job
  }

  /** `create_run` for a trigger: attempt 1, no scheduled tick. */
  function NewRun(job: JobId, origin: Origin, status: Status, now: real): Run {
    Run(job, origin, status, 1, now)
  }

  function Prepare(edges: seq<Edge>, runs: seq<Run>, publish: seq<RunId>, job: JobId, origin: Origin,
                   stack: seq<JobId>, now: real): Plan
    decreases Sources(edges) - Elems(stack), 0, 0
  {
    if job in stack then Cyclic(stack + [job])
    else
      var deps := Deps(edges, job);
      if deps == [] then
        Plan(runs + [NewRun(job, origin, Queued, now)], publish + [|runs|], |runs|)
      else
        assert Edge(job, deps[0]) in edges;
        assert job in Sources(edges) - Elems(stack) && job in Elems(stack + [job]);
        match PrepareAll(edges, runs, publish, deps, stack + [job], now)
        case Cyclic(path) => Cyclic(path)
        case Plan(runs', publish', _) =>
          match ActiveRun(runs', job)
          case Some(existing) => Plan(runs', publish', existing)
          case None => Plan(runs' + [NewRun(job, origin, Pending, now)], publish', |runs'|)
  }

  /** The loop over a job's dependencies. */
  function PrepareAll(edges: seq<Edge>, runs: seq<Run>, publish: seq<RunId>, todo: seq<JobId>,
                      stack: seq<JobId>, now: real): Plan
    decreases Sources(edges) - Elems(stack), 1, |todo|
  {
    if todo == [] then Plan(runs, publish, 0)
    else if HasActive(runs, todo[0]) then PrepareAll(edges, runs, publish, todo[1..], stack, now)
    else
      match Prepare(edges, runs, publish, todo[0], Planned, stack, now)
      case Cyclic(path) => Cyclic(path)
      case Plan(runs', publish', _) => PrepareAll(edges, runs', publish', todo[1..], stack, now)
  }

  function TriggerPlan(edges: seq<Edge>, runs: seq<Run>, job: JobId, now: real): Plan {
    Prepare(edges, runs, [], job, Manual, [], now)
  }

  // ------------------------------------------------------- graph vocabulary

  ghost predicate IsPath(edges: seq<Edge>, p: seq<JobId>) {
    && p != []
    && (forall i :: 0 <= i < |p| - 1 ==> Edge(p[i], p[i + 1]) in edges)
  }

  ghost predicate AllInactive(runs: seq<Run>, p: seq<JobId>) {
    forall i :: 0 <= i < |p| ==> !HasActive(runs, p[i])
  }

  /** A path from `a` to `v` made only of jobs without an active run. */
  ghost predicate InactivePath(edges: seq<Edge>, runs: seq<Run>, a: JobId, v: JobId, p: seq<JobId>) {
    IsPath(edges, p) && AllInactive(runs, p) && p[0] == a && p[|p| - 1] == v
  }

  ghost predicate Reaches(edges: seq<Edge>, runs: seq<Run>, a: JobId, v: JobId) {
    exists p :: InactivePath(edges, runs, a, v, p)
  }

  /** `v` is the triggered job, or is reachable from one of its dependencies through inactive jobs. */
  ghost predicate InClosure(edges: seq<Edge>, runs: seq<Run>, root: JobId, v: JobId) {
    v == root || exists d :: d in Deps(edges, root) && Reaches(edges, runs, d, v)
  }

  /**
   A walk out of `root` that, after its first node, meets only jobs without an active run
   and ends on a node it has met before: it closes a cycle of jobs without an active run
   (if it closes on `root` itself, then `root` has no active run either).
   */
  ghost predicate CycleWalk(edges: seq<Edge>, runs: seq<Run>, root: JobId, p: seq<JobId>) {
    && IsPath(edges, p) && p[0] == root && |p| > 1
    && AllInactive(runs, p[1..])
    && p[|p| - 1] in p[..|p| - 1]
  }

  // ------------------------------------------------------- what the search builds

  /** Ids of the QUEUED rows at or after position `from`, in table order. */
  ghost function QueuedFrom(runs: seq<Run>, from: nat): seq<RunId>
    requires from <= |runs|
  {
    if |runs| == from then []
    else QueuedFrom(runs[..|runs| - 1], from)
         + if runs[|runs| - 1].status == Queued then [|runs| - 1] else []
  }

  /** Row `b` was inserted in dependency order and with the status its job's edges call for. */
  ghost predicate RowOk(edges: seq<Edge>, runs: seq<Run>, b: nat, now: real)
    requires b < |runs|
  {
    var row := runs[b];
    && row.status == (if Deps(edges, row.job) == [] then Queued else Pending)
    && row.attempt == 1 && row.createdAt == now
    && (forall d :: d in Deps(edges, row.job) ==> HasActive(runs[..b], d))
  }

  /** The part of the outcome common to `Prepare` and `PrepareAll`. */
  ghost predicate Extension(edges: seq<Edge>, runs: seq<Run>, publish: seq<RunId>,
                            runs': seq<Run>, publish': seq<RunId>, now: real)
  {
    && runs <= runs'
    && (forall b :: |runs| <= b < |runs'| ==> RowOk(edges, runs', b, now))
    && publish' == publish + QueuedFrom(runs', |runs|)
  }

  lemma HasActiveMonotone(runs: seq<Run>, runs': seq<Run>, j: JobId)
    requires runs <= runs' && HasActive(runs, j)
    ensures HasActive(runs', j)
  {
    var r :| 0 <= r < |runs| && runs[r].job == j && Active(runs[r].status);
    assert runs'[r] == runs[r];
  }

  lemma AllInactiveEarlier(runs: seq<Run>, runs': seq<Run>, p: seq<JobId>)
    requires runs <= runs' && AllInactive(runs', p)
    ensures AllInactive(runs, p)
  {
    forall i | 0 <= i < |p| ensures !HasActive(runs, p[i]) {
      if HasActive(runs, p[i]) { HasActiveMonotone(runs, runs', p[i]); }
    }
  }

  lemma ReachesEarlier(edges: seq<Edge>, runs: seq<Run>, runs': seq<Run>, a: JobId, v: JobId)
    requires runs <= runs' && Reaches(edges, runs', a, v)
    ensures Reaches(edges, runs, a, v)
  {
    var p :| InactivePath(edges, runs', a, v, p);
    AllInactiveEarlier(runs, runs', p);
    assert InactivePath(edges, runs, a, v, p);
  }

  /** Prefixing an inactive job to a path from one of its dependencies. */
  lemma ReachesPrepend(edges: seq<Edge>, runs: seq<Run>, job: JobId, v: JobId)
    requires !HasActive(runs, job) && InClosure(edges, runs, job, v)
    ensures Reaches(edges, runs, job, v)
  {
    if v == job {
      assert InactivePath(edges, runs, job, job, [job]);
    } else {
      var d :| d in Deps(edges, job) && Reaches(edges, runs, d, v);
      var p :| InactivePath(edges, runs, d, v, p);
      assert InactivePath(edges, runs, job, v, [job] + p);
    }
  }

  lemma {:induction false} QueuedFromAppend(runs: seq<Run>, runs': seq<Run>, from: nat)
    requires from <= |runs| && runs <= runs'
    ensures QueuedFrom(runs', from) == QueuedFrom(runs, from) + QueuedFrom(runs', |runs|)
  {
    if |runs'| == |runs| {
      assert runs' == runs;
    } else {
      var shorter := runs'[..|runs'| - 1];
      QueuedFromAppend(runs, shorter, from);
    }
  }

  lemma ExtensionTrans(edges: seq<Edge>, r0: seq<Run>, p0: seq<RunId>, r1: seq<Run>, p1: seq<RunId>,
                       r2: seq<Run>, p2: seq<RunId>, now: real)
    requires Extension(edges, r0, p0, r1, p1, now) && Extension(edges, r1, p1, r2, p2, now)
    ensures Extension(edges, r0, p0, r2, p2, now)
  {
    QueuedFromAppend(r1, r2, |r0|);
    forall b | |r0| <= b < |r2| ensures RowOk(edges, r2, b, now) {
      if b < |r1| {
        assert RowOk(edges, r1, b, now) && r1[..b] == r2[..b] && r1[b] == r2[b];
      }
    }
  }

  /** Appending one correct row. */
  lemma ExtensionRow(edges: seq<Edge>, runs: seq<Run>, publish: seq<RunId>, row: Run, now: real)
    requires RowOk(edges, runs + [row], |runs|, now)
    ensures Extension(edges, runs, publish, runs + [row],
                      publish + if row.status == Queued then [|runs|] else [], now)
  {
    var runs' := runs + [row];
    assert runs'[..|runs'| - 1] == runs;
    assert QueuedFrom(runs', |runs|) == if row.status == Queued then [|runs|] else [];
  }

  // ------------------------------------------------------- the search, by induction

  /**
   `path` continues the stack along edges, meets only inactive jobs from position `from` on,
   and its last node occurs before.
   */
  ghost predicate ClosesCycle(edges: seq<Edge>, runs: seq<Run>, stack: seq<JobId>, path: seq<JobId>, from: nat) {
    && stack < path
    && (forall i :: |stack| <= i < |path| - 1 ==> Edge(path[i], path[i + 1]) in edges)
    && (forall i :: from <= i < |path| ==> !HasActive(runs, path[i]))
    && (exists i :: 0 <= i < |path| - 1 && path[i] == path[|path| - 1])
  }

  /** What a call on an inactive job (or the root call) delivers. */
  ghost predicate PrepareOk(edges: seq<Edge>, runs: seq<Run>, publish: seq<RunId>, job: JobId,
                            origin: Origin, stack: seq<JobId>, now: real, plan: Plan)
  {
    match plan
    case Cyclic(path) =>
      && ClosesCycle(edges, runs, stack, path, |stack| + 1) && path[|stack|] == job
    case Plan(runs', publish', run) =>
      && Extension(edges, runs, publish, runs', publish', now)
      && (forall d :: d in Deps(edges, job) ==> HasActive(runs', d))
      && run < |runs'| && runs'[run].job == job && Active(runs'[run].status)
      && (forall b :: |runs| <= b < |runs'| ==>
            && runs'[b].job !in stack
            && InClosure(edges, runs, job, runs'[b].job)
            && runs'[b].origin == (if b == run then origin else Planned)
            && (b != run ==> !HasActive(runs'[..b], runs'[b].job) && runs'[b].job != job))
      // Unless the job has no dependencies, it gets a row exactly if it had no active run.
      && (Deps(edges, job) != [] && HasActive(runs, job) ==> run < |runs|)
      && (Deps(edges, job) == [] ==> run == |runs| && runs' == runs + [runs'[run]])
      && (run < |runs| ==> HasActive(runs, job) && IsOldest(runs, job, {Pending, Queued, Running}, run))
      && (run >= |runs| ==> run == |runs'| - 1)
      && (!HasActive(runs, job) ==> run >= |runs| && !HasActive(runs'[..run], job))
  }

  ghost predicate PrepareAllOk(edges: seq<Edge>, runs: seq<Run>, publish: seq<RunId>, todo: seq<JobId>,
                               stack: seq<JobId>, now: real, plan: Plan)
  {
    match plan
    case Cyclic(path) =>
      && ClosesCycle(edges, runs, stack, path, |stack|) && path[|stack|] in todo
    case Plan(runs', publish', _) =>
      && Extension(edges, runs, publish, runs', publish', now)
      && (forall d :: d in todo ==> HasActive(runs', d))
      && (forall b :: |runs| <= b < |runs'| ==>
            && runs'[b].job !in stack
            && runs'[b].origin == Planned
            && !HasActive(runs'[..b], runs'[b].job)
            && exists d :: d in todo && Reaches(edges, runs, d, runs'[b].job))
  }

  lemma {:induction false} PrepareCorrect(edges: seq<Edge>, runs: seq<Run>, publish: seq<RunId>,
      job: JobId, origin: Origin, stack: seq<JobId>, now: real)
    ensures PrepareOk(edges, runs, publish, job, origin, stack, now,
                      Prepare(edges, runs, publish, job, origin, stack, now))
    decreases Sources(edges) - Elems(stack), 0, 0
  {
    var deps := Deps(edges, job);
    if job in stack {
      var i :| 0 <= i < |stack| && stack[i] == job;
      assert (stack + [job])[i] == job;
    } else if deps == [] {
      PrepareLeaf(edges, runs, publish, job, origin, stack, now);
    } else {
      assert Edge(job, deps[0]) in edges;
      assert job in Sources(edges) - Elems(stack) && job in Elems(stack + [job]);
      PrepareAllCorrect(edges, runs, publish, deps, stack + [job], now);
      match PrepareAll(edges, runs, publish, deps, stack + [job], now)
      case Cyclic(path) =>
        CycleBelow(edges, runs, job, stack, path);
      case Plan(runs', publish', _) =>
        match ActiveRun(runs', job)
        case Some(existing) =>
          PrepareReuse(edges, runs, publish, job, origin, stack, now, runs', publish', existing);
        case None =>
          PrepareInsert(edges, runs, publish, job, origin, stack, now, runs', publish');
    }
  }

  /** A job without dependencies: one QUEUED row, to be published. */
  lemma {:induction false} PrepareLeaf(edges: seq<Edge>, runs: seq<Run>, publish: seq<RunId>, job: JobId,
      origin: Origin, stack: seq<JobId>, now: real)
    requires Deps(edges, job) == [] && job !in stack
    ensures PrepareOk(edges, runs, publish, job, origin, stack, now,
                      Plan(runs + [NewRun(job, origin, Queued, now)], publish + [|runs|], |runs|))
  {
    var row := NewRun(job, origin, Queued, now);
    assert (runs + [row])[..|runs|] == runs;
    ExtensionRow(edges, runs, publish, row, now);
  }

  /** A cycle found below a dependency is a cycle below the job. */
  lemma {:induction false} CycleBelow(edges: seq<Edge>, runs: seq<Run>, job: JobId, stack: seq<JobId>, path: seq<JobId>)
    requires ClosesCycle(edges, runs, stack + [job], path, |stack| + 1) && path[|stack| + 1] in Deps(edges, job)
    ensures ClosesCycle(edges, runs, stack, path, |stack| + 1) && path[|stack|] == job
  {
    assert (stack + [job])[|stack|] == job;
    assert stack == (stack + [job])[..|stack|] == path[..|stack|];
  }

  /** After the loop over the dependencies the job was active all along: its run is reused. */
  lemma {:induction false} PrepareReuse(edges: seq<Edge>, runs: seq<Run>, publish: seq<RunId>, job: JobId,
      origin: Origin, stack: seq<JobId>, now: real, runs': seq<Run>, publish': seq<RunId>, existing: RunId)
    requires Deps(edges, job) != [] && job !in stack
    requires PrepareAllOk(edges, runs, publish, Deps(edges, job), stack + [job], now, Plan(runs', publish', 0))
    requires IsOldest(runs', job, {Pending, Queued, Running}, existing)
    ensures PrepareOk(edges, runs, publish, job, origin, stack, now, Plan(runs', publish', existing))
  {
    assert job in stack + [job];
    assert existing < |runs|;
    assert runs[existing] == runs'[existing] && HasActive(runs, job);
    assert forall k :: 0 <= k < |runs| ==> runs'[k] == runs[k];
    forall b | |runs| <= b < |runs'|
      ensures runs'[b].job !in stack && runs'[b].job != job && InClosure(edges, runs, job, runs'[b].job)
    {
      assert runs'[b].job !in stack + [job];
    }
  }

  /** Otherwise it is inactive still, and a PENDING row is inserted after its dependencies' rows. */
  lemma {:induction false} PrepareInsert(edges: seq<Edge>, runs: seq<Run>, publish: seq<RunId>, job: JobId,
      origin: Origin, stack: seq<JobId>, now: real, runs': seq<Run>, publish': seq<RunId>)
    requires Deps(edges, job) != [] && job !in stack
    requires PrepareAllOk(edges, runs, publish, Deps(edges, job), stack + [job], now, Plan(runs', publish', 0))
    requires !HasActive(runs', job)
    ensures PrepareOk(edges, runs, publish, job, origin, stack, now,
                      Plan(runs' + [NewRun(job, origin, Pending, now)], publish', |runs'|))
  {
    var row := NewRun(job, origin, Pending, now);
    assert !HasActive(runs, job) by {
      if HasActive(runs, job) { HasActiveMonotone(runs, runs', job); }
    }
    InsertExtension(edges, runs, publish, job, row, now, runs', publish');
    forall b | |runs| <= b < |runs'| ensures InsertedBelow(edges, runs, job, stack, runs' + [row], b) {
      BelowInsert(edges, runs, publish, job, stack, now, runs', publish', row, b);
    }
    InsertAssembled(edges, runs, publish, job, origin, stack, now, runs', publish', row);
  }

  lemma {:induction false} InsertAssembled(edges: seq<Edge>, runs: seq<Run>, publish: seq<RunId>, job: JobId,
      origin: Origin, stack: seq<JobId>, now: real, runs': seq<Run>, publish': seq<RunId>, row: Run)
    requires Deps(edges, job) != [] && job !in stack && row == NewRun(job, origin, Pending, now)
    requires Extension(edges, runs, publish, runs' + [row], publish', now) && |runs| <= |runs'|
    requires forall d :: d in Deps(edges, job) ==> HasActive(runs' + [row], d)
    requires !HasActive(runs, job) && !HasActive(runs', job)
    requires forall b :: |runs| <= b < |runs'| ==> InsertedBelow(edges, runs, job, stack, runs' + [row], b)
    ensures PrepareOk(edges, runs, publish, job, origin, stack, now, Plan(runs' + [row], publish', |runs'|))
  {
    var rows := runs' + [row];
    assert rows[..|runs'|] == runs';
    forall b | |runs| <= b < |rows|
      ensures rows[b].job !in stack && InClosure(edges, runs, job, rows[b].job)
      ensures rows[b].origin == if b == |runs'| then origin else Planned
      ensures b != |runs'| ==> !HasActive(rows[..b], rows[b].job) && rows[b].job != job
    {
      assert b < |runs'| ==> InsertedBelow(edges, runs, job, stack, rows, b);
    }
  }

  /** A row that was inserted for something below `job`. */
  ghost predicate InsertedBelow(edges: seq<Edge>, runs: seq<Run>, job: JobId, stack: seq<JobId>, rows: seq<Run>, b: nat)
    requires b < |rows|
  {
    && rows[b].job !in stack && rows[b].job != job && rows[b].origin == Planned
    && !HasActive(rows[..b], rows[b].job) && InClosure(edges, runs, job, rows[b].job)
  }

  lemma {:induction false} BelowInsert(edges: seq<Edge>, runs: seq<Run>, publish: seq<RunId>, job: JobId,
      stack: seq<JobId>, now: real, runs': seq<Run>, publish': seq<RunId>, row: Run, b: nat)
    requires PrepareAllOk(edges, runs, publish, Deps(edges, job), stack + [job], now, Plan(runs', publish', 0))
    requires |runs| <= b < |runs'|
    ensures InsertedBelow(edges, runs, job, stack, runs' + [row], b)
  {
    var rows := runs' + [row];
    assert rows[b] == runs'[b] && rows[..b] == runs'[..b];
    assert runs'[b].job !in stack + [job];
  }

  lemma {:induction false} InsertExtension(edges: seq<Edge>, runs: seq<Run>, publish: seq<RunId>, job: JobId, row: Run,
      now: real, runs': seq<Run>, publish': seq<RunId>)
    requires Deps(edges, job) != [] && row.job == job && row.status == Pending && row.attempt == 1
    requires row.createdAt == now && Extension(edges, runs, publish, runs', publish', now)
    requires forall d :: d in Deps(edges, job) ==> HasActive(runs', d)
    ensures Extension(edges, runs, publish, runs' + [row], publish', now)
    ensures forall d :: d in Deps(edges, job) ==> HasActive(runs' + [row], d)
  {
    assert (runs' + [row])[..|runs'|] == runs';
    ExtensionRow(edges, runs', publish', row, now);
    ExtensionTrans(edges, runs, publish, runs', publish', runs' + [row], publish', now);
    forall d | d in Deps(edges, job) ensures HasActive(runs' + [row], d) {
      HasActiveMonotone(runs', runs' + [row], d);
    }
  }

  lemma {:induction false} PrepareAllCorrect(edges: seq<Edge>, runs: seq<Run>, publish: seq<RunId>,
      todo: seq<JobId>, stack: seq<JobId>, now: real)
    ensures PrepareAllOk(edges, runs, publish, todo, stack, now,
                         PrepareAll(edges, runs, publish, todo, stack, now))
    decreases Sources(edges) - Elems(stack), 1, |todo|
  {
    if todo == [] {
    } else if HasActive(runs, todo[0]) {
      PrepareAllCorrect(edges, runs, publish, todo[1..], stack, now);
      PrepareAllSkip(edges, runs, publish, todo, stack, now, PrepareAll(edges, runs, publish, todo[1..], stack, now));
    } else {
      var first := Prepare(edges, runs, publish, todo[0], Planned, stack, now);
      PrepareCorrect(edges, runs, publish, todo[0], Planned, stack, now);
      match first
      case Cyclic(path) =>
      case Plan(runs', publish', _) =>
        PrepareAllCorrect(edges, runs', publish', todo[1..], stack, now);
        PrepareAllStep(edges, runs, publish, todo, stack, now, first,
                       PrepareAll(edges, runs', publish', todo[1..], stack, now));
    }
  }

  lemma PrepareAllSkip(edges: seq<Edge>, runs: seq<Run>, publish: seq<RunId>, todo: seq<JobId>,
      stack: seq<JobId>, now: real, plan: Plan)
    requires todo != [] && HasActive(runs, todo[0])
    requires PrepareAllOk(edges, runs, publish, todo[1..], stack, now, plan)
    ensures PrepareAllOk(edges, runs, publish, todo, stack, now, plan)
  {
    assert forall d :: d in todo <==> d == todo[0] || d in todo[1..];
    if plan.Plan? { HasActiveMonotone(runs, plan.runs, todo[0]); }
  }

  lemma PrepareAllStep(edges: seq<Edge>, runs: seq<Run>, publish: seq<RunId>, todo: seq<JobId>,
      stack: seq<JobId>, now: real, first: Plan, rest: Plan)
    requires todo != [] && !HasActive(runs, todo[0]) && first.Plan?
    requires PrepareOk(edges, runs, publish, todo[0], Planned, stack, now, first)
    requires PrepareAllOk(edges, first.runs, first.publish, todo[1..], stack, now, rest)
    ensures PrepareAllOk(edges, runs, publish, todo, stack, now, rest)
  {
    var runs1 := first.runs;
    assert forall d :: d in todo <==> d == todo[0] || d in todo[1..];
    match rest
    case Cyclic(path) =>
      forall i | |stack| <= i < |path| ensures !HasActive(runs, path[i]) {
        if HasActive(runs, path[i]) { HasActiveMonotone(runs, runs1, path[i]); }
      }
    case Plan(runs2, publish2, _) =>
      ExtensionTrans(edges, runs, publish, runs1, first.publish, runs2, publish2, now);
      assert HasActive(runs1, todo[0]);
      HasActiveMonotone(runs1, runs2, todo[0]);
      forall b | |runs| <= b < |runs2|
        ensures runs2[b].job !in stack && runs2[b].origin == Planned && !HasActive(runs2[..b], runs2[b].job)
        ensures exists d :: d in todo && Reaches(edges, runs, d, runs2[b].job)
      {
        if b < |runs1| {
          assert runs2[b] == runs1[b] && runs2[..b] == runs1[..b];
          ReachesPrepend(edges, runs, todo[0], runs1[b].job);
        } else {
          var d :| d in todo[1..] && Reaches(edges, runs1, d, runs2[b].job);
          ReachesEarlier(edges, runs, runs1, d, runs2[b].job);
        }
      }
  }

  // ------------------------------------------------------- main results

  /** What `PrepareCorrect` says of the root call when it succeeds. */
  ghost predicate RootOk(edges: seq<Edge>, runs: seq<Run>, job: JobId, now: real, plan: Plan) {
    plan.Plan? && PrepareOk(edges, runs, [], job, Manual, [], now, plan)
  }

  /** Two new rows never belong to the same job. */
  lemma NewRowsDistinct(edges: seq<Edge>, runs: seq<Run>, job: JobId, now: real, plan: Plan, b: nat, c: nat)
    requires RootOk(edges, runs, job, now, plan) && |runs| <= b < c < |plan.runs|
    ensures plan.runs[b].job != plan.runs[c].job
  {
    assert RowOk(edges, plan.runs, b, now);
    assert plan.runs[..c][b] == plan.runs[b];
  }

  /** A job that became active during the trigger has a new row. */
  lemma NewRowOf(edges: seq<Edge>, runs: seq<Run>, job: JobId, now: real, plan: Plan, n: nat, v: JobId)
    returns (b: nat)
    requires RootOk(edges, runs, job, now, plan) && n <= |plan.runs|
    requires !HasActive(runs, v) && HasActive(plan.runs[..n], v)
    ensures |runs| <= b < n && plan.runs[b].job == v
  {
    b :| 0 <= b < n && plan.runs[..n][b].job == v && Active(plan.runs[..n][b].status);
    assert runs == plan.runs[..|runs|];
  }

  /** Job `d` has one of the new rows before position `b`. */
  ghost predicate NewRowBefore(runs: seq<Run>, rows: seq<Run>, b: nat, d: JobId)
    requires b <= |rows|
  {
    exists c :: |runs| <= c < b && rows[c].job == d
  }

  /** Every new row's inactive dependencies have older new rows. */
  ghost predicate PostOrder(edges: seq<Edge>, runs: seq<Run>, rows: seq<Run>) {
    forall b, d :: |runs| <= b < |rows| && Edge(rows[b].job, d) in edges && !HasActive(runs, d) ==>
      NewRowBefore(runs, rows, b, d)
  }

  lemma RootPostOrder(edges: seq<Edge>, runs: seq<Run>, job: JobId, now: real, plan: Plan)
    requires RootOk(edges, runs, job, now, plan)
    ensures PostOrder(edges, runs, plan.runs)
  {
    forall b, d | |runs| <= b < |plan.runs| && Edge(plan.runs[b].job, d) in edges && !HasActive(runs, d)
      ensures NewRowBefore(runs, plan.runs, b, d)
    {
      assert RowOk(edges, plan.runs, b, now);
      var c := NewRowOf(edges, runs, job, now, plan, b, d);
    }
  }

  /** Along a walk through inactive jobs, new rows get strictly older. */
  lemma {:induction false} RowsDescend(edges: seq<Edge>, runs: seq<Run>, rows: seq<Run>,
      p: seq<JobId>, i: nat, k: nat, b: nat) returns (c: nat)
    requires PostOrder(edges, runs, rows)
    requires IsPath(edges, p) && i <= k < |p|
    requires forall m :: i < m < |p| ==> !HasActive(runs, p[m])
    requires |runs| <= b < |rows| && rows[b].job == p[i]
    ensures |runs| <= c <= b && rows[c].job == p[k]
    ensures i < k ==> c < b
    decreases k - i
  {
    if i == k {
      c := b;
    } else {
      assert Edge(p[i], p[i + 1]) in edges;
      assert NewRowBefore(runs, rows, b, p[i + 1]);
      var next :| |runs| <= next < b && rows[next].job == p[i + 1];
      c := RowsDescend(edges, runs, rows, p, i + 1, k, next);
    }
  }

  lemma NoCycleWalkOnSuccess(edges: seq<Edge>, runs: seq<Run>, job: JobId, now: real, plan: Plan, p: seq<JobId>)
    requires RootOk(edges, runs, job, now, plan)
    ensures !CycleWalk(edges, runs, job, p)
  {
    if CycleWalk(edges, runs, job, p) {
      RootPostOrder(edges, runs, job, now, plan);
      var last := |p| - 1;
      assert forall m :: 1 <= m < |p| ==> p[m] == p[1..][m - 1];
      var i :| 0 <= i < last && p[i] == p[last];
      assert !HasActive(runs, p[last]);
      // p[i] is inactive, so it is the root's own new row or one met on the way from it.
      var b := plan.run;
      if i > 0 {
        assert Edge(p[0], p[1]) in edges && HasActive(plan.runs, p[1]) && plan.runs[..|plan.runs|] == plan.runs;
        b := NewRowOf(edges, runs, job, now, plan, |plan.runs|, p[1]);
        b := RowsDescend(edges, runs, plan.runs, p, 1, i, b);
      }
      var c := RowsDescend(edges, runs, plan.runs, p, i, last, b);
      NewRowsDistinct(edges, runs, job, now, plan, c, b);
      assert false;
    }
  }

  /**
   Cycle detection is exact, and the path in the error is a real one: the trigger answers
   409 if and only if some walk closes a cycle of jobs without an active run.
   */
  lemma CycleDetectionExact(edges: seq<Edge>, runs: seq<Run>, job: JobId, now: real, plan: Plan)
    requires plan == TriggerPlan(edges, runs, job, now)
    ensures plan.Cyclic? <==> exists p :: CycleWalk(edges, runs, job, p)
    ensures plan.Cyclic? ==> CycleWalk(edges, runs, job, plan.path)
  {
    PrepareCorrect(edges, runs, [], job, Manual, [], now);
    if plan.Cyclic? {
      CycleWitness(edges, runs, job, now, plan);
    } else {
      forall p ensures !CycleWalk(edges, runs, job, p) { NoCycleWalkOnSuccess(edges, runs, job, now, plan, p); }
    }
  }

  lemma CycleWitness(edges: seq<Edge>, runs: seq<Run>, job: JobId, now: real, plan: Plan)
    requires plan.Cyclic? && PrepareOk(edges, runs, [], job, Manual, [], now, plan)
    ensures CycleWalk(edges, runs, job, plan.path)
  {
    var path := plan.path;
    assert path[1..] == path[1..|path|];
    var i :| 0 <= i < |path| - 1 && path[i] == path[|path| - 1];
    assert path[..|path| - 1][i] == path[|path| - 1];
  }

  /** Every node of an inactive path out of an active-after-the-trigger job is active too. */
  lemma {:induction false} PathCovered(edges: seq<Edge>, runs: seq<Run>, job: JobId, now: real, plan: Plan,
      p: seq<JobId>)
    requires RootOk(edges, runs, job, now, plan)
    requires IsPath(edges, p) && AllInactive(runs, p) && HasActive(plan.runs, p[0])
    ensures HasActive(plan.runs, p[|p| - 1])
    decreases |p|
  {
    if |p| > 1 {
      assert plan.runs[..|plan.runs|] == plan.runs;
      var b := NewRowOf(edges, runs, job, now, plan, |plan.runs|, p[0]);
      assert RowOk(edges, plan.runs, b, now) && Edge(p[0], p[1]) in edges;
      HasActiveMonotone(plan.runs[..b], plan.runs, p[1]);
      assert forall i :: 0 <= i < |p[1..]| ==> p[1..][i] == p[i + 1];
      PathCovered(edges, runs, job, now, plan, p[1..]);
    }
  }

  lemma {:induction false} QueuedFromMembers(runs: seq<Run>, from: nat, r: RunId)
    requires from <= |runs|
    ensures r in QueuedFrom(runs, from) <==> from <= r < |runs| && runs[r].status == Queued
  {
    if |runs| > from { QueuedFromMembers(runs[..|runs| - 1], from, r); }
  }

  /** Row `b` of a plan: in the closure, inserted for a job without an active run, in dependency order. */
  ghost predicate NewRowOk(edges: seq<Edge>, runs: seq<Run>, job: JobId, now: real, plan: Plan, b: nat)
    requires plan.Plan? && b < |plan.runs|
  {
    var row := plan.runs[b];
    && RowOk(edges, plan.runs, b, now)
    && InClosure(edges, runs, job, row.job)
    && (row.job == job <==> b == plan.run)
    && row.origin == (if b == plan.run then Manual else Planned)
    && (row.job != job || Deps(edges, job) != [] ==> !HasActive(runs, row.job))
    && (b in plan.publish <==> Deps(edges, row.job) == [])
  }

  /**
   A successful trigger is a correct plan. Nothing existing changes; every job in the closure
   of the triggered one ends active; a row is inserted for exactly the closure's jobs that had
   no active run (and for the triggered job if it has no dependencies), once each, after its
   dependencies have a run; rows of dependency-free jobs are QUEUED and are exactly the ones
   published, the others are PENDING; and the run it answers with is the new one or, if the job
   was active, its oldest active run.
   */
  lemma {:induction false} TriggerPlanCorrect(edges: seq<Edge>, runs: seq<Run>, job: JobId, now: real, plan: Plan)
    requires plan == TriggerPlan(edges, runs, job, now) && plan.Plan?
    ensures runs <= plan.runs
    ensures forall v :: InClosure(edges, runs, job, v) ==> HasActive(plan.runs, v)
    ensures forall b :: |runs| <= b < |plan.runs| ==> NewRowOk(edges, runs, job, now, plan, b)
    ensures forall b, c :: |runs| <= b < c < |plan.runs| ==> plan.runs[b].job != plan.runs[c].job
    ensures forall r :: r in plan.publish ==> |runs| <= r < |plan.runs| && plan.runs[r].status == Queued
    ensures plan.run < |plan.runs| && plan.runs[plan.run].job == job && Active(plan.runs[plan.run].status)
    ensures plan.run >= |runs| <==> Deps(edges, job) == [] || !HasActive(runs, job)
    ensures plan.run < |runs| ==> IsOldest(runs, job, {Pending, Queued, Running}, plan.run)
  {
    PrepareCorrect(edges, runs, [], job, Manual, [], now);
    RootOkMeans(edges, runs, job, now, plan);
  }

  lemma RootOkMeans(edges: seq<Edge>, runs: seq<Run>, job: JobId, now: real, plan: Plan)
    requires RootOk(edges, runs, job, now, plan)
    ensures forall v :: InClosure(edges, runs, job, v) ==> HasActive(plan.runs, v)
    ensures forall b :: |runs| <= b < |plan.runs| ==> NewRowOk(edges, runs, job, now, plan, b)
    ensures forall b, c :: |runs| <= b < c < |plan.runs| ==> plan.runs[b].job != plan.runs[c].job
    ensures forall r :: r in plan.publish ==> |runs| <= r < |plan.runs| && plan.runs[r].status == Queued
  {
    forall v | InClosure(edges, runs, job, v) ensures HasActive(plan.runs, v) {
      if v != job {
        var d :| d in Deps(edges, job) && Reaches(edges, runs, d, v);
        var p :| InactivePath(edges, runs, d, v, p);
        PathCovered(edges, runs, job, now, plan, p);
      }
    }
    forall b, c | |runs| <= b < c < |plan.runs| ensures plan.runs[b].job != plan.runs[c].job {
      NewRowsDistinct(edges, runs, job, now, plan, b, c);
    }
    assert plan.publish == QueuedFrom(plan.runs, |runs|);
    forall r ensures r in plan.publish <==> |runs| <= r < |plan.runs| && plan.runs[r].status == Queued {
      if r >= 0 { QueuedFromMembers(plan.runs, |runs|, r); }
    }
    forall b | |runs| <= b < |plan.runs| ensures NewRowOk(edges, runs, job, now, plan, b) {
      NewRowInactive(edges, runs, job, now, plan, b);
    }
  }

  lemma {:induction false} NewRowInactive(edges: seq<Edge>, runs: seq<Run>, job: JobId, now: real, plan: Plan, b: nat)
    requires RootOk(edges, runs, job, now, plan) && |runs| <= b < |plan.runs|
    ensures plan.runs[b].job != job || Deps(edges, job) != [] ==> !HasActive(runs, plan.runs[b].job)
  {
    if HasActive(runs, plan.runs[b].job) {
      assert runs <= plan.runs[..b];
      HasActiveMonotone(runs, plan.runs[..b], plan.runs[b].job);
    }
  }

  /** If no job at all is active, a call that succeeds publishes something. */
  lemma {:induction false} PublishesSomething(edges: seq<Edge>, runs: seq<Run>, publish: seq<RunId>,
      job: JobId, origin: Origin, stack: seq<JobId>, now: real)
    requires forall j :: !HasActive(runs, j)
    requires Prepare(edges, runs, publish, job, origin, stack, now).Plan?
    ensures |Prepare(edges, runs, publish, job, origin, stack, now).publish| > |publish|
    decreases Sources(edges) - Elems(stack)
  {
    var deps := Deps(edges, job);
    if deps != [] {
      assert Edge(job, deps[0]) in edges;
      assert job in Sources(edges) - Elems(stack) && job in Elems(stack + [job]);
      PublishesSomething(edges, runs, publish, deps[0], Planned, stack + [job], now);
      var first := Prepare(edges, runs, publish, deps[0], Planned, stack + [job], now);
      PrepareAllCorrect(edges, first.runs, first.publish, deps[1..], stack + [job], now);
    }
  }

  /** Hence a trigger on an idle system always puts work on the stream. */
  lemma IdleTriggerPublishes(edges: seq<Edge>, runs: seq<Run>, job: JobId, now: real)
    requires forall j :: !HasActive(runs, j)
    requires TriggerPlan(edges, runs, job, now).Plan?
    ensures TriggerPlan(edges, runs, job, now).publish != []
  {
    PublishesSomething(edges, runs, [], job, Manual, [], now);
  }

  /** An existing run is answered with only if it is the job's oldest active one. */
  lemma {:induction false} Reuses(edges: seq<Edge>, runs: seq<Run>, publish: seq<RunId>, job: JobId, origin: Origin,
      stack: seq<JobId>, now: real)
    ensures match Prepare(edges, runs, publish, job, origin, stack, now)
            case Cyclic(_) => true
            case Plan(_, _, run) =>
              && (run < |runs| ==> IsOldest(runs, job, {Pending, Queued, Running}, run))
              && (Deps(edges, job) != [] && HasActive(runs, job) ==> run < |runs|)
  {
    PrepareCorrect(edges, runs, publish, job, origin, stack, now);
  }

  // ------------------------------------------------------- the code

  /** One API request: its database session, the rows to publish, and the dispatch stream. */
  class TriggerRequest {
    var runs: seq<Run>
    var toPublish: seq<RunId>
    var stream: seq<RunId>

    constructor (runs: seq<Run>, stream: seq<RunId>)
      ensures this.runs == runs && this.stream == stream && toPublish == []
    {
      this.runs, this.toPublish, this.stream := runs, [], stream;
    }

    /** `_prepare_trigger_run`; None is the HTTP 409. */
    method PrepareTriggerRun(edges: seq<Edge>, job: JobId, origin: Origin, stack: seq<JobId>, now: real)
      returns (run: Option<RunId>)
      modifies this`runs, this`toPublish
      ensures match Prepare(edges, old(runs), old(toPublish), job, origin, stack, now)
              case Cyclic(_) => run.None?
              case Plan(runs', publish', r) => run == Some(r) && runs == runs' && toPublish == publish'
      ensures run.Some? && run.value < |old(runs)| ==> IsOldest(old(runs), job, {Pending, Queued, Running}, run.value)
      decreases Sources(edges) - Elems(stack)
    {
      Reuses(edges, runs, toPublish, job, origin, stack, now);
      if job in stack { return None; }
      var deps := Deps(edges, job);
      if deps == [] {
        run := Some(|runs|);
        toPublish := toPublish + [|runs|];
        runs := runs + [NewRun(job, origin, Queued, now)];
        return;
      }
      assert Edge(job, deps[0]) in edges;
      assert job in Sources(edges) - Elems(stack) && job in Elems(stack + [job]);
      for i := 0 to |deps|
        invariant PrepareAll(edges, old(runs), old(toPublish), deps, stack + [job], now)
               == PrepareAll(edges, runs, toPublish, deps[i..], stack + [job], now)
      {
        assert deps[i..][1..] == deps[i + 1..];
        if ActiveRun(runs, deps[i]).None? {
          var sub := PrepareTriggerRun(edges, deps[i], Planned, stack + [job], now);
          if sub.None? { return None; }
        }
      }
      run := ActiveRun(runs, job);
      if run.None? {
        run := Some(|runs|);
        runs := runs + [NewRun(job, origin, Pending, now)];
      }
    }

    /** `trigger_job`: on a cycle the transaction is rolled back and nothing is published. */
    method TriggerJob(edges: seq<Edge>, job: JobId, now: real) returns (run: Option<RunId>)
      requires toPublish == []
      modifies this
      ensures match TriggerPlan(edges, old(runs), job, now)
              case Cyclic(_) => run.None? && runs == old(runs) && stream == old(stream)
              case Plan(runs', publish, r) => run == Some(r) && runs == runs' && stream == old(stream) + publish
      // A job with dependencies that is active already answers with its oldest active run.
      ensures run.Some? && Deps(edges, job) != [] && HasActive(old(runs), job) ==>
                IsOldest(old(runs), job, {Pending, Queued, Running}, run.value)
    {
      var committed := runs;
      Reuses(edges, runs, [], job, Manual, [], now);
      run := PrepareTriggerRun(edges, job, Manual, [], now);
      if run.None? {
        runs := committed;
        return;
      }
      for i := 0 to |toPublish|
        invariant toPublish == TriggerPlan(edges, old(runs), job, now).publish
        invariant stream == old(stream) + toPublish[..i] && runs == TriggerPlan(edges, old(runs), job, now).runs
      {
        stream := stream + [toPublish[i]];
      }
    }
  }
}
