/**
 A job that has dependencies, is never scheduled, has no retries and is not retried through
 the API has at most one PENDING, QUEUED or RUNNING run, in every interleaving of triggers,
 fan-outs, claims, reclaims, cancels, crashes and finishes.
 */
module SingleActive {
  import opened Runs
  import opened Store
  import opened Protocol
  import opened Lifecycle
  import Trigger

  /** The steps the guarantee excludes for job `j`. */
  ghost predicate Excluded(w: World, s: Step, j: JobId) {
    || (s.ScheduleTick? && s.job == j)
    || (s.RetryRun? && s.run < |w.runs| && w.runs[s.run].job == j)
  }

  ghost predicate ActiveRow(runs: seq<Run>, j: JobId, r: RunId) {
    r < |runs| && runs[r].job == j && Active(runs[r].status)
  }

  ghost predicate AtMostOneActive(runs: seq<Run>, j: JobId) {
    forall a: RunId, b: RunId :: ActiveRow(runs, j, a) && ActiveRow(runs, j, b) ==> a == b
  }

  /** No task is about to retry a run of job `j`. */
  ghost predicate TaskQuiet(w: World, j: JobId, task: Task) {
    && task.run < |w.runs|
    && (task.pc.Retrying? || task.pc.LateRetry? ==> w.runs[task.run].job != j)
  }

  ghost predicate Single(w: World, j: JobId) {
    && InFlightKnown(w)
    && (forall r :: 0 <= r < |w.runs| ==> w.runs[r].attempt >= 1)
    && (forall t :: 0 <= t < |w.tasks| ==> TaskQuiet(w, j, w.tasks[t]))
    && AtMostOneActive(w.runs, j)
  }

  /** Row `b` is active after the step and was not before. */
  ghost predicate Fresh(runs: seq<Run>, runs': seq<Run>, j: JobId, b: RunId) {
    ActiveRow(runs', j, b) && !ActiveRow(runs, j, b)
  }

  ghost predicate OneFresh(runs: seq<Run>, runs': seq<Run>, j: JobId) {
    && (forall b: RunId :: Fresh(runs, runs', j, b) ==> !HasActive(runs, j))
    && (forall a: RunId, b: RunId :: Fresh(runs, runs', j, a) && Fresh(runs, runs', j, b) ==> a == b)
  }

  /** The guards of `create_dependency_run`. */
  lemma DependencyRunFresh(runs: seq<Run>, k: JobId, now: real, j: JobId)
    ensures OneFresh(runs, CreateDependencyRun(runs, k, now).0, j)
  {
    var (runs', id) := CreateDependencyRun(runs, k, now);
    assert forall b :: 0 <= b < |runs| ==> runs'[b] == runs[b] || (id == Some(b) && runs[b].status == Pending);
  }

  /** The guards of the trigger. */
  lemma {:induction false} TriggerFresh(cfg: Config, runs: seq<Run>, job: JobId, now: real, plan: Trigger.Plan,
      j: JobId)
    requires plan == Trigger.TriggerPlan(cfg.edges, runs, job, now) && plan.Plan?
    requires Deps(cfg.edges, j) != []
    ensures OneFresh(runs, plan.runs, j)
  {
    Trigger.TriggerPlanCorrect(cfg.edges, runs, job, now, plan);
    assert forall b :: 0 <= b < |runs| ==> plan.runs[b] == runs[b];
    forall b: RunId | Fresh(runs, plan.runs, j, b) ensures b >= |runs| && !HasActive(runs, j) {
      if b >= |runs| { assert Trigger.NewRowOk(cfg.edges, runs, job, now, plan, b); }
    }
  }

  /** A change of one status or an insertion for another job makes nothing active. */
  lemma QuietFresh(runs: seq<Run>, runs': seq<Run>, j: JobId)
    requires Grows(runs, runs')
    requires forall b :: |runs| <= b < |runs'| ==> runs'[b].job != j
    ensures OneFresh(runs, runs', j)
  {
    assert forall b :: 0 <= b < |runs| ==> Active(runs'[b].status) ==> Active(runs[b].status);
  }

  lemma AdvanceFresh(cfg: Config, w: World, t: TaskId, now: real, w': World, j: JobId)
    requires Next(cfg, w, Advance(t, now), w') && TaskQuiet(w, j, w.tasks[t]) && Grows(w.runs, w'.runs)
    ensures OneFresh(w.runs, w'.runs, j)
  {
    var pc := w.tasks[t].pc;
    if pc.FanOut? && pc.todo != [] {
      DependencyRunFresh(w.runs, pc.todo[0], now, j);
    } else if pc.LateFanOut? {
      DependencyRunFresh(w.runs, pc.job, now, j);
    } else {
      AdvanceInserts(cfg, w, t, now, w', j);
      QuietFresh(w.runs, w'.runs, j);
    }
  }

  lemma AdvanceInserts(cfg: Config, w: World, t: TaskId, now: real, w': World, j: JobId)
    requires Next(cfg, w, Advance(t, now), w') && TaskQuiet(w, j, w.tasks[t])
    requires !w.tasks[t].pc.LateFanOut? && (w.tasks[t].pc.FanOut? ==> w.tasks[t].pc.todo == [])
    ensures forall b :: |w.runs| <= b < |w'.runs| ==> w'.runs[b].job != j
  {}

  lemma {:induction false} StepFresh(cfg: Config, w: World, s: Step, w': World, j: JobId)
    requires Next(cfg, w, s, w') && Single(w, j) && !Excluded(w, s, j) && Deps(cfg.edges, j) != []
    requires Grows(w.runs, w'.runs)
    ensures OneFresh(w.runs, w'.runs, j)
  {
    match s
    case Advance(t, now) => AdvanceFresh(cfg, w, t, now, w', j);
    case TriggerJob(job, now) =>
      var plan := Trigger.TriggerPlan(cfg.edges, w.runs, job, now);
      if plan.Plan? { TriggerFresh(cfg, w.runs, job, now, plan, j); } else { QuietFresh(w.runs, w'.runs, j); }
    case _ => QuietFresh(w.runs, w'.runs, j);
  }

  lemma OneFreshKeeps(runs: seq<Run>, runs': seq<Run>, j: JobId)
    requires AtMostOneActive(runs, j) && OneFresh(runs, runs', j)
    ensures AtMostOneActive(runs', j)
  {
    forall a: RunId, b: RunId | ActiveRow(runs', j, a) && ActiveRow(runs', j, b) ensures a == b {
      if Fresh(runs, runs', j, a) && !Fresh(runs, runs', j, b) { assert ActiveRow(runs, j, b) && HasActive(runs, j); }
      if Fresh(runs, runs', j, b) && !Fresh(runs, runs', j, a) { assert ActiveRow(runs, j, a) && HasActive(runs, j); }
    }
  }

  ghost predicate NoRetries(cfg: Config, j: JobId) {
    j in cfg.jobs ==> cfg.jobs[j].maxRetries == 0
  }

  /** With max_retries 0 no first attempt may be retried. */
  lemma AdvanceQuiet(cfg: Config, w: World, t: TaskId, now: real, j: JobId)
    requires t < |w.tasks| && TaskQuiet(w, j, w.tasks[t]) && w.runs[w.tasks[t].run].attempt >= 1
    requires NoRetries(cfg, j)
    ensures var w' := AdvanceTask(cfg, w, t, now);
            && |w'.tasks| == |w.tasks|
            && (w'.tasks[t].pc.Retrying? || w'.tasks[t].pc.LateRetry? ==> w.runs[w.tasks[t].run].job != j)
  {}

  lemma StepQuiet(cfg: Config, w: World, s: Step, w': World, j: JobId, t: TaskId)
    requires Next(cfg, w, s, w') && Single(w, j) && NoRetries(cfg, j) && Grows(w.runs, w'.runs)
    requires t < |w'.tasks|
    ensures TaskQuiet(w', j, w'.tasks[t])
  {
    StepTasks(cfg, w, s, w');
    assert TaskSource(w, s, w', t);
    if t < |w.tasks| {
      assert TaskQuiet(w, j, w.tasks[t]);
      if s.Advance? && s.task == t { AdvanceQuiet(cfg, w, t, s.now, j); }
    } else if s.Abort? {
      assert TaskQuiet(w, j, w.tasks[s.task]);
    } else {
      assert Known(w.runs, w.stream[s.msg].run);
    }
  }

  lemma StepAttempts(cfg: Config, w: World, s: Step, w': World)
    requires Next(cfg, w, s, w') && forall r :: 0 <= r < |w.runs| ==> w.runs[r].attempt >= 1
    ensures forall r :: 0 <= r < |w'.runs| ==> w'.runs[r].attempt >= 1
  {
    StepGrows(cfg, w, s, w');
    forall r | |w.runs| <= r < |w'.runs| ensures w'.runs[r].attempt >= 1 { StepBirth(cfg, w, s, w', r); }
  }

  lemma {:induction false} SingleStep(cfg: Config, w: World, s: Step, w': World, j: JobId)
    requires Next(cfg, w, s, w') && Single(w, j) && !Excluded(w, s, j)
    requires Deps(cfg.edges, j) != [] && NoRetries(cfg, j)
    ensures Single(w', j)
  {
    StepGrows(cfg, w, s, w');
    InFlightKnownStep(cfg, w, s, w');
    StepAttempts(cfg, w, s, w');
    StepFresh(cfg, w, s, w', j);
    OneFreshKeeps(w.runs, w'.runs, j);
    forall t | 0 <= t < |w'.tasks| ensures TaskQuiet(w', j, w'.tasks[t]) { StepQuiet(cfg, w, s, w', j, t); }
  }

  lemma {:induction false} SingleActiveRun(cfg: Config, ws: seq<World>, ss: seq<Step>, i: nat, j: JobId)
    requires Behavior(cfg, ws, ss) && i < |ws|
    requires Deps(cfg.edges, j) != [] && (j in cfg.jobs ==> cfg.jobs[j].maxRetries == 0)
    requires forall k :: 0 <= k < |ss| ==> !Excluded(ws[k], ss[k], j)
    ensures Single(ws[i], j) && AtMostOneActive(ws[i].runs, j)
  {
    if i > 0 {
      SingleActiveRun(cfg, ws, ss, i - 1, j);
      assert StepAt(cfg, ws, ss, i - 1);
      SingleStep(cfg, ws[i - 1], ss[i - 1], ws[i], j);
    }
  }
}
