/**
 A run that is meant to wait for its job's dependencies is claimed only after each of them
 has had a succeeded run. Scheduled runs and retries made through the API do not wait.
 */
module DependencySafety {
  import opened Runs
  import opened Store
  import opened Protocol
  import opened Lifecycle
  import opened Claims
  import Trigger

  /** Inserted by a trigger or by the success fan-out, or an automatic retry of such a run. */
  ghost predicate Guarded(runs: seq<Run>, r: RunId)
    requires r < |runs|
  {
    match runs[r].origin
    case Manual => true
    case Planned => true
    case FannedOut => true
    case AutoRetry(p) => p < r && Guarded(runs, p)
    case _ => false
  }

  lemma {:induction false} GuardedStable(runs: seq<Run>, runs': seq<Run>, r: RunId)
    requires Grows(runs, runs') && r < |runs|
    ensures Guarded(runs', r) == Guarded(runs, r)
  {
    if runs[r].origin.AutoRetry? && runs[r].origin.parent < r {
      GuardedStable(runs, runs', runs[r].origin.parent);
    }
  }

  /** Every dependency of `j` is among the jobs that have succeeded so far. */
  ghost predicate Met(cfg: Config, had: iset<JobId>, j: JobId) {
    forall d :: d in Deps(cfg.edges, j) ==> d in had
  }

  ghost predicate RowMet(cfg: Config, runs: seq<Run>, had: iset<JobId>, r: RunId)
    requires r < |runs|
  {
    runs[r].status != Pending && runs[r].status != Canceled && Guarded(runs, r) ==> Met(cfg, had, runs[r].job)
  }

  ghost predicate AllMet(cfg: Config, had: iset<JobId>, todo: seq<JobId>) {
    forall d :: d in todo ==> Met(cfg, had, d)
  }

  /** The program points from which a task may still create an automatic retry. */
  predicate MayRetry(pc: Pc) {
    pc.Executing? || pc.Checking? || pc.Retrying? || pc.LateRetry?
  }

  ghost predicate TaskMet(cfg: Config, runs: seq<Run>, had: iset<JobId>, task: Task) {
    && task.run < |runs|
    && (MayRetry(task.pc) && Guarded(runs, task.run) ==> Met(cfg, had, runs[task.run].job))
    && (task.pc.FanOut? || task.pc.Sending? ==> AllMet(cfg, had, task.pc.todo))
    && (task.pc.LateFanOut? ==> Met(cfg, had, task.pc.job))
  }

  /** `had` holds at least the jobs that have a succeeded run. */
  ghost predicate Records(runs: seq<Run>, had: iset<JobId>) {
    forall r :: 0 <= r < |runs| && runs[r].status == Succeeded ==> runs[r].job in had
  }

  ghost predicate DependenciesMet(cfg: Config, w: World, had: iset<JobId>) {
    && InFlightKnown(w)
    && Records(w.runs, had)
    && (forall r :: 0 <= r < |w.runs| ==> RowMet(cfg, w.runs, had, r))
    && (forall t :: 0 <= t < |w.tasks| ==> TaskMet(cfg, w.runs, had, w.tasks[t]))
  }

  // ------------------------------------------------------- rows

  /** The job a task's next step inserts or promotes a dependency run for. */
  predicate FansOutTo(task: Task, j: JobId) {
    (task.pc.FanOut? && task.pc.todo != [] && task.pc.todo[0] == j) || (task.pc.LateFanOut? && task.pc.job == j)
  }

  /** How a row that does not wait (any more) can come about. */
  ghost predicate RowSource(cfg: Config, w: World, s: Step, w': World, r: RunId)
    requires r < |w'.runs|
  {
    var row := w'.runs[r];
    || row.status == Pending || row.status == Canceled
    || (r < |w.runs| && w.runs[r].status != Pending && w.runs[r].status != Canceled)
    || Deps(cfg.edges, row.job) == []
    || (r >= |w.runs| && (row.origin.Scheduled? || row.origin.ApiRetry?))
    || (s.Advance? && s.task < |w.tasks| && FansOutTo(w.tasks[s.task], row.job))
    || (s.Advance? && s.task < |w.tasks| && MayRetry(w.tasks[s.task].pc) && r >= |w.runs|
        && row.origin == AutoRetry(w.tasks[s.task].run) && w.tasks[s.task].run < |w.runs|
        && row.job == w.runs[w.tasks[s.task].run].job)
  }

  lemma AdvanceRows(cfg: Config, w: World, t: TaskId, now: real, w': World, r: RunId)
    requires Next(cfg, w, Advance(t, now), w') && r < |w'.runs|
    requires TaskKnown(w.runs, w.stream, w.tasks[t])
    ensures RowSource(cfg, w, Advance(t, now), w', r)
  {}

  lemma StepRows(cfg: Config, w: World, s: Step, w': World, r: RunId)
    requires Next(cfg, w, s, w') && InFlightKnown(w) && r < |w'.runs|
    ensures RowSource(cfg, w, s, w', r)
  {
    if s.Advance? {
      AdvanceRows(cfg, w, s.task, s.now, w', r);
    } else if s.TriggerJob? {
      var plan := Trigger.TriggerPlan(cfg.edges, w.runs, s.job, s.now);
      if plan.Plan? { TriggerExtends(cfg, w.runs, s.job, s.now, plan); }
    }
  }

  lemma RowMetStep(cfg: Config, w: World, s: Step, w': World, had: iset<JobId>, had': iset<JobId>, r: RunId)
    requires DependenciesMet(cfg, w, had) && had <= had' && Grows(w.runs, w'.runs)
    requires r < |w'.runs| && RowSource(cfg, w, s, w', r)
    ensures RowMet(cfg, w'.runs, had', r)
  {
    if r < |w.runs| {
      GuardedStable(w.runs, w'.runs, r);
      assert RowMet(cfg, w.runs, had, r);
    }
    if s.Advance? && s.task < |w.tasks| {
      assert TaskMet(cfg, w.runs, had, w.tasks[s.task]);
      GuardedStable(w.runs, w'.runs, w.tasks[s.task].run);
      if w.tasks[s.task].pc.FanOut? && w.tasks[s.task].pc.todo != [] {
        assert w.tasks[s.task].pc.todo[0] in w.tasks[s.task].pc.todo;
      }
    }
  }

  // ------------------------------------------------------- tasks

  /** How a program point with an obligation comes about. */
  ghost predicate PcSource(cfg: Config, w: World, task: Task, pc: Pc)
    requires task.run < |w.runs|
  {
    && (MayRetry(pc) ==> MayRetry(task.pc)
                         || (task.pc == Start && Claimable(w.runs[task.run].status, task.allowRunning)))
    && (pc.FanOut? || pc.Sending? ==>
          || (task.pc.Reading? && pc.FanOut? && pc.todo == DependentsReady(cfg, w.runs, w.runs[task.run].job))
          || ((task.pc.FanOut? || task.pc.Sending?) && forall d :: d in pc.todo ==> d in task.pc.todo))
    && !pc.LateFanOut?
  }

  lemma AdvanceSource(cfg: Config, w: World, t: TaskId, now: real)
    requires t < |w.tasks| && w.tasks[t].run < |w.runs| && w.tasks[t].pc != Executing && w.tasks[t].pc != Done
    ensures |AdvanceTask(cfg, w, t, now).tasks| == |w.tasks|
    ensures PcSource(cfg, w, w.tasks[t], AdvanceTask(cfg, w, t, now).tasks[t].pc)
  {}

  /** A claim, and every later program point, inherits from the row; a fan-out list from the check. */
  lemma AdvanceMet(cfg: Config, w: World, t: TaskId, pc: Pc, runs': seq<Run>, had: iset<JobId>)
    requires DependenciesMet(cfg, w, had) && Grows(w.runs, runs') && t < |w.tasks|
    requires w.tasks[t].run < |w.runs| && PcSource(cfg, w, w.tasks[t], pc)
    ensures TaskMet(cfg, runs', had, w.tasks[t].(pc := pc))
  {
    var task := w.tasks[t];
    assert TaskMet(cfg, w.runs, had, task) && TaskKnown(w.runs, w.stream, task) && RowMet(cfg, w.runs, had, task.run);
    GuardedStable(w.runs, runs', task.run);
    if task.pc.Reading? { ReadyMet(cfg, w, had, w.runs[task.run].job); }
  }

  lemma ReadyMet(cfg: Config, w: World, had: iset<JobId>, j: JobId)
    requires Records(w.runs, had)
    ensures AllMet(cfg, had, DependentsReady(cfg, w.runs, j))
  {
    forall d | d in DependentsReady(cfg, w.runs, j) ensures Met(cfg, had, d) {
      assert Ready(cfg, w.runs, d);
      forall e | e in Deps(cfg.edges, d) ensures e in had { assert HasSucceeded(w.runs, e); }
    }
  }

  lemma TaskMetStep(cfg: Config, w: World, s: Step, w': World, had: iset<JobId>, t: TaskId)
    requires DependenciesMet(cfg, w, had) && Next(cfg, w, s, w') && Grows(w.runs, w'.runs)
    requires t < |w'.tasks|
    ensures TaskMet(cfg, w'.runs, had, w'.tasks[t])
  {
    StepTasks(cfg, w, s, w');
    assert TaskSource(w, s, w', t);
    if s.Advance? && s.task == t {
      AdvancePc(cfg, w, t, s.now);
      AdvanceSource(cfg, w, t, s.now);
      AdvanceMet(cfg, w, t, w'.tasks[t].pc, w'.runs, had);
    } else {
      OtherTaskMet(cfg, w, s, w', had, t);
    }
  }

  lemma OtherTaskMet(cfg: Config, w: World, s: Step, w': World, had: iset<JobId>, t: TaskId)
    requires DependenciesMet(cfg, w, had) && Grows(w.runs, w'.runs)
    requires t < |w'.tasks| && TaskSource(w, s, w', t) && !(s.Advance? && s.task == t)
    requires t < |w.tasks| && s.Execute? && s.task == t ==> w.tasks[t].pc == Executing && w'.tasks[t].pc.Checking?
    requires t < |w.tasks| && s.Abort? && s.task == t ==> w'.tasks[t].pc == Acking
    ensures TaskMet(cfg, w'.runs, had, w'.tasks[t])
  {
    if t < |w.tasks| {
      assert TaskMet(cfg, w.runs, had, w.tasks[t]);
      GuardedStable(w.runs, w'.runs, w.tasks[t].run);
    } else if s.Abort? {
      var task := w.tasks[s.task];
      assert TaskMet(cfg, w.runs, had, task);
      GuardedStable(w.runs, w'.runs, task.run);
      if task.pc.FanOut? && task.pc.todo != [] { assert task.pc.todo[0] in task.pc.todo; }
      assert w'.tasks[t] == LeftBehind(task)[0];
    } else {
      assert Known(w.runs, w.stream[s.msg].run);
    }
  }

  lemma MetMore(cfg: Config, runs: seq<Run>, had: iset<JobId>, had': iset<JobId>, task: Task)
    requires TaskMet(cfg, runs, had, task) && had <= had'
    ensures TaskMet(cfg, runs, had', task)
  {
    if task.pc.FanOut? || task.pc.Sending? {
      forall d | d in task.pc.todo ensures Met(cfg, had', d) { assert Met(cfg, had, d); }
    }
  }

  lemma DependenciesMetStep(cfg: Config, w: World, s: Step, w': World, had: iset<JobId>, had': iset<JobId>)
    requires DependenciesMet(cfg, w, had) && Next(cfg, w, s, w')
    requires had <= had' && Records(w'.runs, had')
    ensures DependenciesMet(cfg, w', had')
  {
    StepGrows(cfg, w, s, w');
    InFlightKnownStep(cfg, w, s, w');
    forall r | 0 <= r < |w'.runs| ensures RowMet(cfg, w'.runs, had', r) {
      StepRows(cfg, w, s, w', r);
      RowMetStep(cfg, w, s, w', had, had', r);
    }
    forall t | 0 <= t < |w'.tasks| ensures TaskMet(cfg, w'.runs, had', w'.tasks[t]) {
      TaskMetStep(cfg, w, s, w', had, t);
      MetMore(cfg, w'.runs, had, had', w'.tasks[t]);
    }
  }

  // ------------------------------------------------------- whole behaviours

  /** Job `j` had a succeeded run at or before moment `i`. */
  ghost predicate HadSuccess(ws: seq<World>, i: nat, j: JobId)
    requires i < |ws|
  {
    exists k :: 0 <= k <= i && HasSucceeded(ws[k].runs, j)
  }

  ghost function SucceededBy(ws: seq<World>, i: nat): iset<JobId>
    requires i < |ws|
  {
    iset j | HadSuccess(ws, i, j)
  }

  lemma SucceededByGrows(ws: seq<World>, i: nat)
    requires i < |ws|
    ensures Records(ws[i].runs, SucceededBy(ws, i))
    ensures i > 0 ==> SucceededBy(ws, i - 1) <= SucceededBy(ws, i)
  {
    forall r | 0 <= r < |ws[i].runs| && ws[i].runs[r].status == Succeeded
      ensures ws[i].runs[r].job in SucceededBy(ws, i)
    {
      assert HasSucceeded(ws[i].runs, ws[i].runs[r].job);
    }
    if i > 0 {
      forall j | HadSuccess(ws, i - 1, j) ensures HadSuccess(ws, i, j) {
        var k :| 0 <= k <= i - 1 && HasSucceeded(ws[k].runs, j);
      }
    }
  }

  lemma {:induction false} DependenciesMetAlways(cfg: Config, ws: seq<World>, ss: seq<Step>, i: nat)
    requires Behavior(cfg, ws, ss) && i < |ws|
    ensures DependenciesMet(cfg, ws[i], SucceededBy(ws, i))
  {
    SucceededByGrows(ws, i);
    if i > 0 {
      DependenciesMetAlways(cfg, ws, ss, i - 1);
      assert StepAt(cfg, ws, ss, i - 1);
      DependenciesMetStep(cfg, ws[i - 1], ss[i - 1], ws[i], SucceededBy(ws, i - 1), SucceededBy(ws, i));
    }
  }

  /**
   Whatever the interleaving: a run born PENDING or created by fan-out, or an automatic retry
   of one, is claimed only after each of its job's dependencies has had a succeeded run.
   */
  lemma {:induction false} ClaimedAfterDependencies(cfg: Config, ws: seq<World>, ss: seq<Step>, i: nat,
      r: RunId, d: JobId)
    requires Behavior(cfg, ws, ss) && i < |ss|
    requires ClaimsRun(ws[i], ss[i], r) && Guarded(ws[i].runs, r)
    requires d in Deps(cfg.edges, ws[i].runs[r].job)
    ensures HadSuccess(ws, i, d)
  {
    DependenciesMetAlways(cfg, ws, ss, i);
    var w := ws[i];
    assert TaskKnown(w.runs, w.stream, w.tasks[ss[i].task]);
    assert RowMet(cfg, w.runs, SucceededBy(ws, i), r);
    assert d in SucceededBy(ws, i);
  }
}
