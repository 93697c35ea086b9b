/**
 Which jobs can have a run at all, from the configuration alone, and hence which jobs have the
 whole backoff of every retry honoured.
 */
module Grounded {
  import opened Collections
  import opened Runs
  import opened Store
  import opened RetryPolicy
  import opened Protocol
  import opened Lifecycle
  import opened WithoutReclaims
  import opened Timing
  import opened Recovery
  import opened Stranded
  import opened Promotion
  import opened Rounds
  import opened Backoff
  import Trigger

  /** The dependencies of `j` lead down to scheduled jobs and jobs without dependencies only. */
  ghost predicate GroundedIn(cfg: Config, j: JobId, n: nat)
    decreases n
  {
    Schedulable(cfg, j) || (n > 0 && forall e :: e in Deps(cfg.edges, j) ==> GroundedIn(cfg, e, n - 1))
  }

  ghost predicate IsGrounded(cfg: Config, j: JobId) {
    exists n: nat :: GroundedIn(cfg, j, n)
  }

  lemma {:induction false} GroundedDeeper(cfg: Config, j: JobId, n: nat, m: nat)
    requires GroundedIn(cfg, j, n) && n <= m
    ensures GroundedIn(cfg, j, m)
    decreases n
  {
    if !Schedulable(cfg, j) {
      forall e | e in Deps(cfg.edges, j) ensures GroundedIn(cfg, e, m - 1) { GroundedDeeper(cfg, e, n - 1, m - 1); }
    }
  }

  lemma {:induction false} AllGroundedIn(cfg: Config, deps: seq<JobId>) returns (n: nat)
    requires forall e :: e in deps ==> IsGrounded(cfg, e)
    ensures forall e :: e in deps ==> GroundedIn(cfg, e, n)
  {
    if deps == [] {
      n := 0;
    } else {
      var last := deps[|deps| - 1];
      var a := AllGroundedIn(cfg, deps[..|deps| - 1]);
      assert last in deps;
      var b: nat :| GroundedIn(cfg, last, b);
      n := Max(a, b);
      forall e | e in deps ensures GroundedIn(cfg, e, n) {
        if e == last { GroundedDeeper(cfg, e, b, n); } else { GroundedDeeper(cfg, e, a, n); }
      }
    }
  }

  lemma {:induction false} GroundedByDeps(cfg: Config, j: JobId)
    requires forall e :: e in Deps(cfg.edges, j) ==> IsGrounded(cfg, e)
    ensures IsGrounded(cfg, j)
  {
    var n := AllGroundedIn(cfg, Deps(cfg.edges, j));
    assert GroundedIn(cfg, j, n + 1);
  }

  // ------------------------------------------------------- only grounded jobs have runs

  ghost predicate Lists(task: Task, d: JobId) {
    ((task.pc.FanOut? || task.pc.Sending?) && d in task.pc.todo) || (task.pc.LateFanOut? && task.pc.job == d)
  }

  ghost predicate RunsGrounded(cfg: Config, runs: seq<Run>) {
    forall x :: 0 <= x < |runs| ==> IsGrounded(cfg, runs[x].job)
  }

  ghost predicate AllGrounded(cfg: Config, w: World) {
    && InFlightKnown(w) && RunsGrounded(cfg, w.runs)
    && (forall t: TaskId, d :: t < |w.tasks| && Lists(w.tasks[t], d) ==> IsGrounded(cfg, d))
  }

  lemma ActiveGrounded(cfg: Config, runs: seq<Run>, j: JobId)
    requires RunsGrounded(cfg, runs) && (HasActive(runs, j) || HasSucceeded(runs, j))
    ensures IsGrounded(cfg, j)
  {}

  /** Rows inserted in dependency order are grounded one after the other. */
  lemma {:induction false} RowsGrounded(cfg: Config, runs: seq<Run>, rows: seq<Run>, now: real, n: nat)
    requires runs <= rows && RunsGrounded(cfg, runs) && |runs| <= n <= |rows|
    requires forall b :: |runs| <= b < |rows| ==> Trigger.RowOk(cfg.edges, rows, b, now)
    ensures RunsGrounded(cfg, rows[..n])
  {
    if n > |runs| {
      RowsGrounded(cfg, runs, rows, now, n - 1);
      assert Trigger.RowOk(cfg.edges, rows, n - 1, now);
      var v := rows[n - 1].job;
      forall e | e in Deps(cfg.edges, v) ensures IsGrounded(cfg, e) { ActiveGrounded(cfg, rows[..n - 1], e); }
      GroundedByDeps(cfg, v);
      forall x | 0 <= x < n ensures IsGrounded(cfg, rows[x].job) {
        if x < n - 1 { assert rows[..n - 1][x] == rows[x]; }
      }
    } else {
      assert rows[..n] == runs;
    }
  }

  /** A trigger inserts rows in dependency order. */
  lemma PlanRows(cfg: Config, runs: seq<Run>, job: JobId, now: real, plan: Trigger.Plan)
    requires plan == Trigger.TriggerPlan(cfg.edges, runs, job, now) && plan.Plan?
    ensures runs <= plan.runs && forall b :: |runs| <= b < |plan.runs| ==> Trigger.RowOk(cfg.edges, plan.runs, b, now)
  {
    Trigger.TriggerPlanCorrect(cfg.edges, runs, job, now, plan);
    forall b | |runs| <= b < |plan.runs| ensures Trigger.RowOk(cfg.edges, plan.runs, b, now) {
      assert Trigger.NewRowOk(cfg.edges, runs, job, now, plan, b);
    }
  }

  lemma NewRowGrounded(cfg: Config, w: World, s: Step, w': World, x: RunId)
    requires Next(cfg, w, s, w') && AllGrounded(cfg, w) && |w.runs| <= x < |w'.runs|
    ensures IsGrounded(cfg, w'.runs[x].job)
  {
    if s.TriggerJob? {
      var plan := Trigger.TriggerPlan(cfg.edges, w.runs, s.job, s.now);
      PlanRows(cfg, w.runs, s.job, s.now, plan);
      RowsGrounded(cfg, w.runs, plan.runs, s.now, |plan.runs|);
      assert plan.runs[..|plan.runs|] == plan.runs;
    } else if Automatic(s) {
      AutoRow(cfg, w, s, w', x);
      AutoRowGrounded(cfg, w, s, w', x);
    }
  }

  lemma AutoRowGrounded(cfg: Config, w: World, s: Step, w': World, x: RunId)
    requires AllGrounded(cfg, w) && |w.runs| <= x < |w'.runs| && RowFrom(cfg, w, s, w', x)
    ensures IsGrounded(cfg, w'.runs[x].job)
  {
    var d := w'.runs[x].job;
    if s.Advance? && s.task < |w.tasks| && NamesAt(w, s.task, d) { assert Lists(w.tasks[s.task], d); }
    if Schedulable(cfg, d) { assert GroundedIn(cfg, d, 0); }
  }

  /** Where a listed job comes from. */
  lemma ListFrom(cfg: Config, w: World, s: Step, w': World, t: TaskId, d: JobId)
    requires Next(cfg, w, s, w') && InFlightKnown(w) && t < |w'.tasks| && Lists(w'.tasks[t], d)
    ensures || (exists u: TaskId :: u < |w.tasks| && Lists(w.tasks[u], d))
            || AllDependenciesSucceeded(cfg.edges, w.runs, d)
  {
    StepTasks(cfg, w, s, w');
    assert TaskSource(w, s, w', t);
    if s.Advance? && s.task == t {
      AutoTask(cfg, w, s, w', t);
      if !AllDependenciesSucceeded(cfg.edges, w.runs, d) { assert Lists(w.tasks[t], d); }
    } else if t < |w.tasks| {
      if w'.tasks[t] == w.tasks[t] { assert Lists(w.tasks[t], d); }
    } else if s.Abort? {
      assert Lists(w.tasks[s.task], d);
    }
  }

  lemma AllGroundedStep(cfg: Config, w: World, s: Step, w': World)
    requires Next(cfg, w, s, w') && AllGrounded(cfg, w)
    ensures AllGrounded(cfg, w')
  {
    InFlightKnownStep(cfg, w, s, w');
    StepGrows(cfg, w, s, w');
    forall x | 0 <= x < |w'.runs| ensures IsGrounded(cfg, w'.runs[x].job) {
      if x >= |w.runs| { NewRowGrounded(cfg, w, s, w', x); }
    }
    forall t: TaskId, d | t < |w'.tasks| && Lists(w'.tasks[t], d) ensures IsGrounded(cfg, d) {
      ListFrom(cfg, w, s, w', t, d);
      if AllDependenciesSucceeded(cfg.edges, w.runs, d) {
        forall e | e in Deps(cfg.edges, d) ensures IsGrounded(cfg, e) { ActiveGrounded(cfg, w.runs, e); }
        GroundedByDeps(cfg, d);
      }
    }
  }

  /** In every behaviour only grounded jobs have runs. */
  lemma {:induction false} OnlyGroundedRun(cfg: Config, ws: seq<World>, ss: seq<Step>, i: nat)
    requires Behavior(cfg, ws, ss) && i < |ws|
    ensures AllGrounded(cfg, ws[i])
  {
    if i > 0 {
      OnlyGroundedRun(cfg, ws, ss, i - 1);
      assert StepAt(cfg, ws, ss, i - 1);
      AllGroundedStep(cfg, ws[i - 1], ss[i - 1], ws[i]);
    }
  }

  // ------------------------------------------------------- every grounded job has one

  /** A world in which nothing has happened but ticks of the jobs in `done`. */
  ghost predicate Ticked(cfg: Config, w: World, done: set<JobId>) {
    && w == INIT.(runs := w.runs, outbox := w.outbox)
    && (forall x :: 0 <= x < |w.runs| ==>
          w.runs[x].status == Queued && w.runs[x].job in done && Schedulable(cfg, w.runs[x].job))
    && (forall d :: d in done && Schedulable(cfg, d) ==> HasActive(w.runs, d))
  }

  lemma StartReached(cfg: Config)
    ensures TimedReach(cfg, INIT, 0.0)
  {
    assert ReachedBy(cfg, INIT, 0.0, [INIT], [], []);
  }

  lemma {:induction false} TickEach(cfg: Config, todo: set<JobId>) returns (w: World)
    ensures TimedReach(cfg, w, 0.0) && Ticked(cfg, w, todo)
    decreases todo
  {
    if d :| d in todo {
      var w0 := TickEach(cfg, todo - {d});
      w := w0;
      if Schedulable(cfg, d) {
        var s := ScheduleTick(d, 0, 0.0);
        ReachStep(cfg, w0, 0.0, s, 0.0);
        w := Apply(cfg, w0, s);
        assert !TickTaken(w0.runs, d, 0);
        assert w.runs[|w0.runs|].job == d;
      }
      forall e | e in todo && Schedulable(cfg, e) ensures HasActive(w.runs, e) {
        if e != d {
          var x :| 0 <= x < |w0.runs| && w0.runs[x].job == e && Active(w0.runs[x].status);
          assert w.runs[x] == w0.runs[x];
        }
      }
    } else {
      w := INIT;
      StartReached(cfg);
    }
  }

  lemma SubPath(edges: seq<Edge>, p: seq<JobId>, a: nat, b: nat)
    requires Trigger.IsPath(edges, p) && a < b <= |p|
    ensures Trigger.IsPath(edges, p[a..b])
  {
    forall i | 0 <= i < b - a - 1 ensures Edge(p[a..b][i], p[a..b][i + 1]) in edges {
      assert Edge(p[a + i], p[a + i + 1]) in edges;
    }
  }

  /** Along a path of jobs that are not scheduled the level falls. */
  lemma {:induction false} LevelFalls(cfg: Config, p: seq<JobId>, n: nat)
    requires Trigger.IsPath(cfg.edges, p) && GroundedIn(cfg, p[0], n)
    requires forall i :: 0 <= i < |p| ==> !Schedulable(cfg, p[i])
    ensures n >= |p| && GroundedIn(cfg, p[|p| - 1], n - (|p| - 1))
    decreases |p|
  {
    if |p| > 1 {
      assert Edge(p[0], p[0 + 1]) in cfg.edges && p[1] in Deps(cfg.edges, p[0]);
      SubPath(cfg.edges, p, 1, |p|);
      LevelFalls(cfg, p[1..|p|], n - 1);
    }
  }

  /** The least level of a grounded job. */
  lemma {:induction false} LeastLevel(cfg: Config, j: JobId, m: nat) returns (n: nat)
    requires GroundedIn(cfg, j, m)
    ensures GroundedIn(cfg, j, n) && (n > 0 ==> !GroundedIn(cfg, j, n - 1))
    decreases m
  {
    if m == 0 || !GroundedIn(cfg, j, m - 1) { n := m; } else { n := LeastLevel(cfg, j, m - 1); }
  }

  lemma {:induction false} LoopHasNoLevel(cfg: Config, p: seq<JobId>, i: nat, m: nat)
    requires Trigger.IsPath(cfg.edges, p) && i < |p| - 1 && p[i] == p[|p| - 1]
    requires forall k :: 0 <= k < |p| ==> !Schedulable(cfg, p[k])
    ensures !GroundedIn(cfg, p[0], m)
  {
    if GroundedIn(cfg, p[0], m) {
      SubPath(cfg.edges, p, 0, i + 1);
      LevelFalls(cfg, p[0..i + 1], m);
      var n := LeastLevel(cfg, p[i], m - i);
      SubPath(cfg.edges, p, i, |p|);
      LevelFalls(cfg, p[i..|p|], n);
      GroundedDeeper(cfg, p[i], n - (|p| - i - 1), n - 1);
    }
  }

  /** With every scheduled job active, a walk that meets a cycle starts at a job that is not grounded. */
  lemma WalkNotGrounded(cfg: Config, w: World, j: JobId, p: seq<JobId>)
    requires Ticked(cfg, w, cfg.jobs.Keys) && !Schedulable(cfg, j) && Trigger.CycleWalk(cfg.edges, w.runs, j, p)
    ensures !IsGrounded(cfg, j)
  {
    forall i | 0 <= i < |p| ensures !Schedulable(cfg, p[i]) {
      if i > 0 { assert p[1..][i - 1] == p[i] && !HasActive(w.runs, p[i]); }
    }
    var i :| 0 <= i < |p| - 1 && p[..|p| - 1][i] == p[|p| - 1];
    forall m: nat ensures !GroundedIn(cfg, j, m) { LoopHasNoLevel(cfg, p, i, m); }
  }

  lemma GroundedIsAccepted(cfg: Config, w: World, j: JobId)
    requires Ticked(cfg, w, cfg.jobs.Keys) && !Schedulable(cfg, j) && IsGrounded(cfg, j)
    ensures Trigger.TriggerPlan(cfg.edges, w.runs, j, 0.0).Plan?
  {
    forall p ensures !Trigger.CycleWalk(cfg.edges, w.runs, j, p) {
      if Trigger.CycleWalk(cfg.edges, w.runs, j, p) { WalkNotGrounded(cfg, w, j, p); }
    }
    Trigger.CycleDetectionExact(cfg.edges, w.runs, j, 0.0, Trigger.TriggerPlan(cfg.edges, w.runs, j, 0.0));
  }

  // ------------------------------------------------------- what an accepted trigger leads to

  /** The world after the ticks and an accepted trigger. */
  ghost predicate Triggered(cfg: Config, w0: World, j: JobId, plan: Trigger.Plan, w: World) {
    && Ticked(cfg, w0, cfg.jobs.Keys) && !HasActive(w0.runs, j)
    && plan == Trigger.TriggerPlan(cfg.edges, w0.runs, j, 0.0) && plan.Plan?
    && w == w0.(runs := plan.runs, outbox := w0.outbox + multiset(plan.publish))
  }

  /** Row by row: every job in the table can succeed, its dependencies having earlier rows. */
  lemma {:induction false} PlannedCanSucceed(cfg: Config, w: World, base: nat, b: nat)
    requires b < |w.runs| && base <= |w.runs| && (forall e :: e in cfg.edges ==> e.job in cfg.jobs)
    requires forall x :: 0 <= x < base ==> w.runs[x].status == Queued
    requires forall x :: base <= x < |w.runs| ==> Trigger.RowOk(cfg.edges, w.runs, x, 0.0)
    ensures CanSucceed(cfg, w, w.runs[b].job, b + 1)
    ensures w.runs[b].status == Pending ==> Fed(cfg, w, w.runs[b].job, b)
    decreases b
  {
    var v := w.runs[b].job;
    if w.runs[b].status == Queued {
      assert WinnableRow(w, b, v);
    } else {
      assert Trigger.RowOk(cfg.edges, w.runs, b, 0.0);
      forall e | e in Deps(cfg.edges, v) ensures CanSucceed(cfg, w, e, b) {
        var c :| 0 <= c < |w.runs[..b]| && w.runs[..b][c].job == e && Active(w.runs[..b][c].status);
        PlannedCanSucceed(cfg, w, base, c);
        Deeper(cfg, w, e, c + 1, b);
      }
      assert forall x :: 0 <= x < |w.runs| ==> w.runs[x].status != Running by {
        forall x | base <= x < |w.runs| ensures w.runs[x].status != Running {
          assert Trigger.RowOk(cfg.edges, w.runs, x, 0.0);
        }
      }
      PlannedIsFed(cfg, w, v, b);
    }
  }

  lemma {:induction false} PlannedIsFed(cfg: Config, w: World, v: JobId, b: nat)
    requires b < |w.runs| && w.runs[b].job == v && w.runs[b].status == Pending && Deps(cfg.edges, v) != []
    requires (forall x :: 0 <= x < |w.runs| ==> w.runs[x].status != Running)
    requires (forall e :: e in cfg.edges ==> e.job in cfg.jobs)
    requires forall e :: e in Deps(cfg.edges, v) ==> CanSucceed(cfg, w, e, b)
    ensures Fed(cfg, w, v, b) && CanSucceed(cfg, w, v, b + 1) && !Blocked(w, v)
  {
    var e := Deps(cfg.edges, v)[0];
    assert e in Deps(cfg.edges, v) && Edge(v, e) in cfg.edges;
    assert !Blocked(w, v);
  }

  lemma PlannedIsPromotable(cfg: Config, w0: World, j: JobId, plan: Trigger.Plan, w: World)
    requires Triggered(cfg, w0, j, plan, w) && plan.run < |plan.runs| && plan.runs[plan.run].status == Pending
    requires forall e :: e in cfg.edges ==> e.job in cfg.jobs
    ensures plan.runs[plan.run].job == j && OnlyPending(w.runs, plan.run) && Promotable(cfg, w, j)
  {
    PlanRows(cfg, w0.runs, j, 0.0, plan);
    Trigger.TriggerPlanCorrect(cfg.edges, w0.runs, j, 0.0, plan);
    PlannedCanSucceed(cfg, w, |w0.runs|, plan.run);
    forall x | 0 <= x < |w.runs| ensures w.runs[x].status != Running {
      assert x >= |w0.runs| ==> Trigger.RowOk(cfg.edges, w.runs, x, 0.0);
    }
    assert !Blocked(w, j);
  }

  // ------------------------------------------------------- and in time

  /** The clock reading a step uses. */
  function NowOf(s: Step): real {
    match s
    case TriggerJob(_, now) => now
    case RetryRun(_, now) => now
    case ScheduleTick(_, _, now) => now
    case RequeueOrphans(now) => now
    case PromoteDelayed(now, _) => now
    case Advance(_, now) => now
    case _ => 0.0
  }

  /** A path of schedulers and workers can be timed. */
  lemma {:induction false} PathIsTimed(cfg: Config, ws: seq<World>, ss: seq<Step>, n: nat,
      time: real) returns (time': real)
    requires Continuation(cfg, ws, ss, false) && (forall i :: 0 <= i < |ss| ==> Prompt(ws[i], ss[i]))
    requires TimedReach(cfg, ws[0], time) && n <= |ss|
    ensures TimedReach(cfg, ws[n], time') && Grows(ws[0].runs, ws[n].runs)
  {
    time' := time;
    AppendGrows(ws[0].runs, ws[0].runs);
    if n > 0 {
      var time0 := PathIsTimed(cfg, ws, ss, n - 1, time);
      var s := ss[n - 1];
      assert StepAt(cfg, ws, ss, n - 1) && Prompt(ws[n - 1], s);
      time' := if time0 < NowOf(s) then NowOf(s) else time0;
      ReachStep(cfg, ws[n - 1], time0, s, time');
      StepGrows(cfg, ws[n - 1], s, ws[n]);
      GrowsTrans(ws[0].runs, ws[n - 1].runs, ws[n].runs);
    }
  }

  lemma TimedKnown(cfg: Config, w: World, time: real)
    requires TimedReach(cfg, w, time)
    ensures InFlightKnown(w)
  {
    var ws: seq<World>, ss: seq<Step>, times :| ReachedBy(cfg, w, time, ws, ss, times);
    NothingInFlightIsPending(cfg, ws, ss, |ss|);
  }

  /** What an accepted trigger plans for the job comes to be queued. */
  lemma TriggeredIsQueued(cfg: Config, w0: World, j: JobId, plan: Trigger.Plan, w: World)
      returns (w': World, time': real)
    requires Triggered(cfg, w0, j, plan, w) && TimedReach(cfg, w, 0.0)
    requires forall e :: e in cfg.edges ==> e.job in cfg.jobs
    ensures QueuedAt(cfg, j, 1, w', time', plan.run)
  {
    Trigger.TriggerPlanCorrect(cfg.edges, w0.runs, j, 0.0, plan);
    TriggerExtends(cfg, w0.runs, j, 0.0, plan);
    w', time' := w, 0.0;
    if w.runs[plan.run].status != Queued {
      PlannedIsPromotable(cfg, w0, j, plan, w);
      TimedKnown(cfg, w, 0.0);
      w' := PromotionReachable(cfg, w, plan.run);
      var ws: seq<World>, ss: seq<Step> :| Path(cfg, w, w', ws, ss);
      time' := PathIsTimed(cfg, ws, ss, |ss|, 0.0);
    }
  }

  lemma GroundedTrigger(cfg: Config, w0: World, j: JobId) returns (plan: Trigger.Plan, w: World)
    requires j in cfg.jobs && IsGrounded(cfg, j) && !Schedulable(cfg, j)
    requires TimedReach(cfg, w0, 0.0) && Ticked(cfg, w0, cfg.jobs.Keys)
    ensures Triggered(cfg, w0, j, plan, w) && TimedReach(cfg, w, 0.0)
  {
    GroundedIsAccepted(cfg, w0, j);
    plan := Trigger.TriggerPlan(cfg.edges, w0.runs, j, 0.0);
    var s := Step.TriggerJob(j, 0.0);
    ReachStep(cfg, w0, 0.0, s, 0.0);
    w := Apply(cfg, w0, s);
  }

  /** Every grounded job has a queued first attempt in some timed behaviour. */
  lemma GroundedIsQueued(cfg: Config, j: JobId) returns (w: World, time: real, x: RunId)
    requires j in cfg.jobs && IsGrounded(cfg, j) && forall e :: e in cfg.edges ==> e.job in cfg.jobs
    ensures QueuedAt(cfg, j, 1, w, time, x)
  {
    if Schedulable(cfg, j) {
      StartReached(cfg);
      var s := ScheduleTick(j, 0, 0.0);
      ReachStep(cfg, INIT, 0.0, s, 0.0);
      w, time, x := Apply(cfg, INIT, s), 0.0, 0;
    } else {
      var w0 := TickEach(cfg, cfg.jobs.Keys);
      var plan, w1 := GroundedTrigger(cfg, w0, j);
      w, time := TriggeredIsQueued(cfg, w0, j, plan, w1);
      x := plan.run;
    }
  }

  // ------------------------------------------------------- exactly which backoffs are honoured

  /** A retryable run of a job is queued in some timed behaviour if and only if the job is grounded and has retries. */
  lemma RetryableIff(cfg: Config, j: JobId)
    requires j in cfg.jobs && forall e :: e in cfg.edges ==> e.job in cfg.jobs
    ensures Retryable(cfg, j) <==> cfg.jobs[j].maxRetries > 0 && IsGrounded(cfg, j)
  {
    if Retryable(cfg, j) {
      var w, time, x: RunId, a: nat :| QueuedAt(cfg, j, a, w, time, x) && a <= cfg.jobs[j].maxRetries;
      var ws: seq<World>, ss: seq<Step>, times :| ReachedBy(cfg, w, time, ws, ss, times);
      OnlyGroundedRun(cfg, ws, ss, |ss|);
      CountsAlways(cfg, ws, ss, |ss|);
      assert CountOk(cfg, w.runs, x);
    }
    if cfg.jobs[j].maxRetries > 0 && IsGrounded(cfg, j) {
      var w, time, x := GroundedIsQueued(cfg, j);
      assert QueuedAt(cfg, j, 1, w, time, x);
    }
  }

  /**
   The whole backoff is honoured for every automatic retry of a job, in every timed behaviour,
   if and only if the job has no retries, or is not grounded and so never has a run, or its
   longest backoff is within the orphan threshold.
   */
  lemma BackoffHonouredIff(cfg: Config, j: JobId)
    requires j in cfg.jobs && forall e :: e in cfg.edges ==> e.job in cfg.jobs
    ensures AlwaysHonoured(cfg, j) <==>
              || cfg.jobs[j].maxRetries == 0 || !IsGrounded(cfg, j)
              || BackoffSeconds(cfg.jobs[j].maxRetries, cfg.jobs[j].backoffSec) as real <= 60.0
  {
    RetryableIff(cfg, j);
    EarlyIff(cfg, j);
  }
}
