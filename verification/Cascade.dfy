/**
 Cascades end: on an acyclic dependency graph, and with no further triggers, ticks, API
 retries or reclaims, only finitely many more runs are ever created. The bound is a potential
 that recurses on the height of the graph and on the attempts a run has left.
 */
module Cascade {
  import opened Runs
  import opened Store
  import opened RetryPolicy
  import opened Protocol
  import opened Lifecycle
  import opened Claims

  /** `height` falls along every edge from a dependency to its dependent. */
  ghost predicate Acyclic(edges: seq<Edge>, height: JobId -> nat) {
    forall e :: e in edges ==> height(e.job) < height(e.dep)
  }

  // ------------------------------------------------------- the potential

  ghost function RetriesLeft(cfg: Config, j: JobId, attempt: nat): nat {
    if ShouldRetry(attempt, MaxRetries(cfg, j)) then MaxRetries(cfg, j) - attempt + 1 else 0
  }

  /** How many runs one unfinished run of job `j`, at this attempt, can still cause. */
  ghost function RunWeight(cfg: Config, height: JobId -> nat, j: JobId, attempt: nat): nat
    requires Acyclic(cfg.edges, height)
    decreases height(j), 1, RetriesLeft(cfg, j, attempt)
  {
    FanWeight(cfg, height, j, Distinct(Dependents(cfg.edges, j)))
    + if ShouldRetry(attempt, MaxRetries(cfg, j)) then 1 + RunWeight(cfg, height, j, attempt + 1) else 0
  }

  /** One run for each of `j`'s dependents in `todo`, and what that run can cause. */
  ghost function FanWeight(cfg: Config, height: JobId -> nat, j: JobId, todo: seq<JobId>): nat
    requires Acyclic(cfg.edges, height)
    requires forall d :: d in todo ==> Edge(d, j) in cfg.edges
    decreases height(j), 0, |todo|
  {
    if todo == [] then 0
    else
      assert Edge(todo[|todo| - 1], j) in cfg.edges;
      FanWeight(cfg, height, j, todo[..|todo| - 1]) + 1 + RunWeight(cfg, height, todo[|todo| - 1], 1)
  }

  /** The same sum for a fan-out list on its own. */
  ghost function TodoWeight(cfg: Config, height: JobId -> nat, todo: seq<JobId>): nat
    requires Acyclic(cfg.edges, height)
  {
    if todo == [] then 0
    else TodoWeight(cfg, height, todo[..|todo| - 1]) + 1 + RunWeight(cfg, height, todo[|todo| - 1], 1)
  }

  /** An unclaimed run holds its weight itself; afterwards the task that claimed it does. */
  ghost function RowWeight(cfg: Config, height: JobId -> nat, row: Run): nat
    requires Acyclic(cfg.edges, height)
  {
    if row.status.Pending? || row.status.Queued? then RunWeight(cfg, height, row.job, row.attempt) else 0
  }

  ghost function SuccessWeight(cfg: Config, height: JobId -> nat, j: JobId): nat
    requires Acyclic(cfg.edges, height)
  {
    FanWeight(cfg, height, j, Distinct(Dependents(cfg.edges, j)))
  }

  ghost function TaskWeight(cfg: Config, height: JobId -> nat, runs: seq<Run>, task: Task): nat
    requires Acyclic(cfg.edges, height) && task.run < |runs|
  {
    var j, a := runs[task.run].job, runs[task.run].attempt;
    match task.pc
    case Start => if task.allowRunning then RunWeight(cfg, height, j, a) else 0
    case Executing => RunWeight(cfg, height, j, a)
    case Checking(_) => RunWeight(cfg, height, j, a)
    case Retrying(_) => 1 + RunWeight(cfg, height, j, a + 1)
    case LateRetry => 1 + RunWeight(cfg, height, j, a + 1)
    case Finishing(result) => if result == Succeeded then SuccessWeight(cfg, height, j) else 0
    case Reading => SuccessWeight(cfg, height, j)
    case FanOut(todo) => TodoWeight(cfg, height, todo)
    case Sending(_, todo) => TodoWeight(cfg, height, todo)
    case LateFanOut(d) => 1 + RunWeight(cfg, height, d, 1)
    case _ => 0
  }

  ghost predicate InRange(runs: seq<Run>, tasks: seq<Task>) {
    forall t :: 0 <= t < |tasks| ==> tasks[t].run < |runs|
  }

  ghost function RowsWeight(cfg: Config, height: JobId -> nat, runs: seq<Run>): nat
    requires Acyclic(cfg.edges, height)
  {
    if runs == [] then 0
    else RowsWeight(cfg, height, runs[..|runs| - 1]) + RowWeight(cfg, height, runs[|runs| - 1])
  }

  ghost function TasksWeight(cfg: Config, height: JobId -> nat, runs: seq<Run>, tasks: seq<Task>): nat
    requires Acyclic(cfg.edges, height) && InRange(runs, tasks)
  {
    if tasks == [] then 0
    else TasksWeight(cfg, height, runs, tasks[..|tasks| - 1]) + TaskWeight(cfg, height, runs, tasks[|tasks| - 1])
  }

  ghost function Potential(cfg: Config, height: JobId -> nat, w: World): nat
    requires Acyclic(cfg.edges, height) && InRange(w.runs, w.tasks)
  {
    RowsWeight(cfg, height, w.runs) + TasksWeight(cfg, height, w.runs, w.tasks)
  }

  // ------------------------------------------------------- sums

  lemma {:induction false} RowsAppend(cfg: Config, height: JobId -> nat, runs: seq<Run>, row: Run)
    requires Acyclic(cfg.edges, height)
    ensures RowsWeight(cfg, height, runs + [row]) == RowsWeight(cfg, height, runs) + RowWeight(cfg, height, row)
  {
    assert (runs + [row])[..|runs|] == runs;
  }

  lemma {:induction false} RowsUpdate(cfg: Config, height: JobId -> nat, runs: seq<Run>, r: RunId, row: Run)
    requires Acyclic(cfg.edges, height) && r < |runs|
    ensures RowsWeight(cfg, height, runs[r := row]) + RowWeight(cfg, height, runs[r])
         == RowsWeight(cfg, height, runs) + RowWeight(cfg, height, row)
  {
    var n := |runs| - 1;
    if r == n {
      assert runs[r := row][..n] == runs[..n];
    } else {
      RowsUpdate(cfg, height, runs[..n], r, row);
      assert runs[r := row][..n] == runs[..n][r := row];
    }
  }

  lemma {:induction false} TasksAppend(cfg: Config, height: JobId -> nat, runs: seq<Run>, tasks: seq<Task>, task: Task)
    requires Acyclic(cfg.edges, height) && InRange(runs, tasks) && task.run < |runs|
    ensures InRange(runs, tasks + [task])
    ensures TasksWeight(cfg, height, runs, tasks + [task])
         == TasksWeight(cfg, height, runs, tasks) + TaskWeight(cfg, height, runs, task)
  {
    assert (tasks + [task])[..|tasks|] == tasks;
  }

  lemma {:induction false} TasksUpdate(cfg: Config, height: JobId -> nat, runs: seq<Run>, tasks: seq<Task>,
      t: nat, task: Task)
    requires Acyclic(cfg.edges, height) && InRange(runs, tasks) && t < |tasks| && task.run < |runs|
    ensures InRange(runs, tasks[t := task])
    ensures TasksWeight(cfg, height, runs, tasks[t := task]) + TaskWeight(cfg, height, runs, tasks[t])
         == TasksWeight(cfg, height, runs, tasks) + TaskWeight(cfg, height, runs, task)
  {
    var n := |tasks| - 1;
    if t == n {
      assert tasks[t := task][..n] == tasks[..n];
    } else {
      TasksUpdate(cfg, height, runs, tasks[..n], t, task);
      assert tasks[t := task][..n] == tasks[..n][t := task];
    }
  }

  /** Task weights depend on nothing a transaction may change. */
  lemma {:induction false} TasksStable(cfg: Config, height: JobId -> nat, runs: seq<Run>, runs': seq<Run>,
      tasks: seq<Task>)
    requires Acyclic(cfg.edges, height) && InRange(runs, tasks) && Grows(runs, runs')
    ensures InRange(runs', tasks) && TasksWeight(cfg, height, runs', tasks) == TasksWeight(cfg, height, runs, tasks)
  {
    if tasks != [] { TasksStable(cfg, height, runs, runs', tasks[..|tasks| - 1]); }
  }

  lemma {:induction false} TodoIsFan(cfg: Config, height: JobId -> nat, j: JobId, todo: seq<JobId>)
    requires Acyclic(cfg.edges, height)
    requires forall d :: d in todo ==> Edge(d, j) in cfg.edges
    ensures TodoWeight(cfg, height, todo) == FanWeight(cfg, height, j, todo)
  {
    if todo != [] { TodoIsFan(cfg, height, j, todo[..|todo| - 1]); }
  }

  lemma {:induction false} ReadyWeight(cfg: Config, height: JobId -> nat, runs: seq<Run>, todo: seq<JobId>)
    requires Acyclic(cfg.edges, height)
    ensures TodoWeight(cfg, height, ReadyAmong(cfg, runs, todo)) <= TodoWeight(cfg, height, todo)
  {
    if todo != [] {
      var n := |todo| - 1;
      ReadyWeight(cfg, height, runs, todo[..n]);
      var before := ReadyAmong(cfg, runs, todo[..n]);
      assert (before + [todo[n]])[..|before|] == before;
      assert before + [] == before;
    }
  }

  /** Taking the first element off a fan-out list. */
  lemma {:induction false} TodoFirst(cfg: Config, height: JobId -> nat, todo: seq<JobId>)
    requires Acyclic(cfg.edges, height) && todo != []
    ensures TodoWeight(cfg, height, todo) == 1 + RunWeight(cfg, height, todo[0], 1) + TodoWeight(cfg, height, todo[1..])
  {
    var n := |todo| - 1;
    if n > 0 {
      TodoFirst(cfg, height, todo[..n]);
      assert todo[..n][1..] == todo[1..][..n - 1];
    } else {
      assert todo[..0] == [] && todo[1..] == [];
    }
  }

  // ------------------------------------------------------- no step of a cascade raises it

  /** Steps that do not start anything new from outside. */
  ghost predicate Internal(s: Step) {
    !s.TriggerJob? && !s.ScheduleTick? && !s.RetryRun? && !s.Reclaim?
  }

  /** Rows plus potential never grow. */
  ghost predicate Bounded(cfg: Config, height: JobId -> nat, w: World, w': World)
    requires Acyclic(cfg.edges, height) && InRange(w.runs, w.tasks)
  {
    InRange(w'.runs, w'.tasks) && |w'.runs| + Potential(cfg, height, w') <= |w.runs| + Potential(cfg, height, w)
  }

  /** A move of one task that leaves the other tasks alone. */
  lemma {:induction false} MoveBounded(cfg: Config, height: JobId -> nat, w: World, t: TaskId, pc: Pc, runs': seq<Run>)
    requires Acyclic(cfg.edges, height) && InRange(w.runs, w.tasks) && t < |w.tasks| && Grows(w.runs, runs')
    requires |runs'| + RowsWeight(cfg, height, runs') + TaskWeight(cfg, height, w.runs, w.tasks[t].(pc := pc))
          <= |w.runs| + RowsWeight(cfg, height, w.runs) + TaskWeight(cfg, height, w.runs, w.tasks[t])
    ensures InRange(runs', Goto(w.tasks, t, pc))
    ensures |runs'| + RowsWeight(cfg, height, runs') + TasksWeight(cfg, height, runs', Goto(w.tasks, t, pc))
         <= |w.runs| + Potential(cfg, height, w)
  {
    TasksUpdate(cfg, height, w.runs, w.tasks, t, w.tasks[t].(pc := pc));
    TasksStable(cfg, height, w.runs, runs', Goto(w.tasks, t, pc));
  }

  lemma {:induction false} StatusWeight(cfg: Config, height: JobId -> nat, runs: seq<Run>, r: RunId, s: Status)
    requires Acyclic(cfg.edges, height) && r < |runs|
    ensures RowsWeight(cfg, height, SetStatus(runs, r, s)) + RowWeight(cfg, height, runs[r])
         == RowsWeight(cfg, height, runs) + RowWeight(cfg, height, runs[r].(status := s))
  {
    RowsUpdate(cfg, height, runs, r, runs[r].(status := s));
  }

  /** `create_dependency_run` spends the weight its caller set aside for the job. */
  lemma {:induction false} DependencyRunWeight(cfg: Config, height: JobId -> nat, runs: seq<Run>, j: JobId, now: real)
    requires Acyclic(cfg.edges, height)
    ensures var runs' := CreateDependencyRun(runs, j, now).0;
            |runs'| + RowsWeight(cfg, height, runs')
               <= |runs| + RowsWeight(cfg, height, runs) + 1 + RunWeight(cfg, height, j, 1)
  {
    if !HasDispatched(runs, j) {
      match PendingRun(runs, j)
      case Some(p) => StatusWeight(cfg, height, runs, p, Queued);
      case None => RowsAppend(cfg, height, runs, Run(j, FannedOut, Queued, 1, now));
    }
  }

  /** What one step of a task adds in rows and weight, it gives up in weight of its own. */
  ghost predicate Pays(cfg: Config, height: JobId -> nat, w: World, t: TaskId, w': World)
    requires Acyclic(cfg.edges, height) && t < |w.tasks| && w.tasks[t].run < |w.runs|
  {
    && |w'.tasks| == |w.tasks|
    && |w'.runs| + RowsWeight(cfg, height, w'.runs) + TaskWeight(cfg, height, w.runs, w.tasks[t].(pc := w'.tasks[t].pc))
       <= |w.runs| + RowsWeight(cfg, height, w.runs) + TaskWeight(cfg, height, w.runs, w.tasks[t])
  }

  lemma ClaimPays(cfg: Config, height: JobId -> nat, w: World, t: TaskId, now: real)
    requires Acyclic(cfg.edges, height) && t < |w.tasks| && w.tasks[t].run < |w.runs|
    requires w.tasks[t].pc.Start?
    ensures Pays(cfg, height, w, t, AdvanceTask(cfg, w, t, now))
  {
    StatusWeight(cfg, height, w.runs, w.tasks[t].run, Running);
  }

  /** A success may fan out, a failure may retry; the weight of a run covers either. */
  lemma WeightCovers(cfg: Config, height: JobId -> nat, j: JobId, attempt: nat)
    requires Acyclic(cfg.edges, height)
    ensures SuccessWeight(cfg, height, j) <= RunWeight(cfg, height, j, attempt)
    ensures ShouldRetry(attempt, MaxRetries(cfg, j)) ==>
              1 + RunWeight(cfg, height, j, attempt + 1) <= RunWeight(cfg, height, j, attempt)
  {}

  lemma CheckPays(cfg: Config, height: JobId -> nat, w: World, t: TaskId, now: real)
    requires Acyclic(cfg.edges, height) && t < |w.tasks| && w.tasks[t].run < |w.runs|
    requires w.tasks[t].pc.Checking?
    ensures Pays(cfg, height, w, t, AdvanceTask(cfg, w, t, now))
  {
    WeightCovers(cfg, height, w.runs[w.tasks[t].run].job, w.runs[w.tasks[t].run].attempt);
  }

  lemma FinishPays(cfg: Config, height: JobId -> nat, w: World, t: TaskId, now: real)
    requires Acyclic(cfg.edges, height) && t < |w.tasks| && w.tasks[t].run < |w.runs|
    requires w.tasks[t].pc.Finishing?
    ensures Pays(cfg, height, w, t, AdvanceTask(cfg, w, t, now))
  {
    StatusWeight(cfg, height, w.runs, w.tasks[t].run, w.tasks[t].pc.result);
  }

  lemma RetryPays(cfg: Config, height: JobId -> nat, w: World, t: TaskId, now: real)
    requires Acyclic(cfg.edges, height) && t < |w.tasks| && w.tasks[t].run < |w.runs|
    requires w.tasks[t].pc.Retrying? || w.tasks[t].pc.LateRetry?
    ensures Pays(cfg, height, w, t, AdvanceTask(cfg, w, t, now))
  {
    RowsAppend(cfg, height, w.runs, RetryRow(w.runs, w.tasks[t].run, now));
  }

  lemma {:induction false} ReadyFits(cfg: Config, height: JobId -> nat, runs: seq<Run>, j: JobId)
    requires Acyclic(cfg.edges, height)
    ensures TodoWeight(cfg, height, DependentsReady(cfg, runs, j)) <= SuccessWeight(cfg, height, j)
  {
    var all := Distinct(Dependents(cfg.edges, j));
    ReadyWeight(cfg, height, runs, all);
    TodoIsFan(cfg, height, j, all);
  }

  lemma ReadPays(cfg: Config, height: JobId -> nat, w: World, t: TaskId, now: real)
    requires Acyclic(cfg.edges, height) && t < |w.tasks| && w.tasks[t].run < |w.runs|
    requires w.tasks[t].pc.Reading?
    ensures Pays(cfg, height, w, t, AdvanceTask(cfg, w, t, now))
  {
    var j := w.runs[w.tasks[t].run].job;
    ReadyFits(cfg, height, w.runs, j);
    assert AdvanceTask(cfg, w, t, now).tasks[t].pc == FanOut(DependentsReady(cfg, w.runs, j));
  }

  lemma FanOutPays(cfg: Config, height: JobId -> nat, w: World, t: TaskId, now: real)
    requires Acyclic(cfg.edges, height) && t < |w.tasks| && w.tasks[t].run < |w.runs|
    requires w.tasks[t].pc.FanOut? && w.tasks[t].pc.todo != []
    ensures Pays(cfg, height, w, t, AdvanceTask(cfg, w, t, now))
  {
    var todo := w.tasks[t].pc.todo;
    var w' := AdvanceTask(cfg, w, t, now);
    TodoFirst(cfg, height, todo);
    DependencyRunWeight(cfg, height, w.runs, todo[0], now);
    FanOutMoves(cfg, w, t, now);
    assert TaskWeight(cfg, height, w.runs, w.tasks[t].(pc := w'.tasks[t].pc)) == TodoWeight(cfg, height, todo[1..]);
  }

  lemma FanOutMoves(cfg: Config, w: World, t: TaskId, now: real)
    requires t < |w.tasks| && w.tasks[t].run < |w.runs| && w.tasks[t].pc.FanOut? && w.tasks[t].pc.todo != []
    ensures var w' := AdvanceTask(cfg, w, t, now); var todo := w.tasks[t].pc.todo;
            && w'.runs == CreateDependencyRun(w.runs, todo[0], now).0 && |w'.tasks| == |w.tasks|
            && (w'.tasks[t].pc.FanOut? || w'.tasks[t].pc.Sending?) && w'.tasks[t].pc.todo == todo[1..]
  {}

  lemma LateFanOutPays(cfg: Config, height: JobId -> nat, w: World, t: TaskId, now: real)
    requires Acyclic(cfg.edges, height) && t < |w.tasks| && w.tasks[t].run < |w.runs|
    requires w.tasks[t].pc.LateFanOut?
    ensures Pays(cfg, height, w, t, AdvanceTask(cfg, w, t, now))
  {
    DependencyRunWeight(cfg, height, w.runs, w.tasks[t].pc.job, now);
  }

  lemma AdvancePays(cfg: Config, height: JobId -> nat, w: World, t: TaskId, now: real)
    requires Acyclic(cfg.edges, height) && t < |w.tasks| && w.tasks[t].run < |w.runs|
    requires w.tasks[t].pc != Executing && w.tasks[t].pc != Done
    ensures Pays(cfg, height, w, t, AdvanceTask(cfg, w, t, now))
  {
    match w.tasks[t].pc {
      case Start => ClaimPays(cfg, height, w, t, now);
      case Checking(_) => CheckPays(cfg, height, w, t, now);
      case Finishing(_) => FinishPays(cfg, height, w, t, now);
      case Retrying(_) => RetryPays(cfg, height, w, t, now);
      case LateRetry => RetryPays(cfg, height, w, t, now);
      case Reading => ReadPays(cfg, height, w, t, now);
      case FanOut(todo) => if todo != [] { FanOutPays(cfg, height, w, t, now); }
      case LateFanOut(_) => LateFanOutPays(cfg, height, w, t, now);
      case _ =>
    }
  }

  lemma AdvanceBounded(cfg: Config, height: JobId -> nat, w: World, t: TaskId, now: real, w': World)
    requires Acyclic(cfg.edges, height) && InRange(w.runs, w.tasks) && Next(cfg, w, Advance(t, now), w')
    ensures Bounded(cfg, height, w, w')
  {
    AdvanceGrows(cfg, w, t, now);
    AdvancePays(cfg, height, w, t, now);
    AdvancePc(cfg, w, t, now);
    MoveBounded(cfg, height, w, t, w'.tasks[t].pc, w'.runs);
  }

  /** An interrupted call keeps the weight of what it may still insert. */
  lemma {:induction false} AbortBounded(cfg: Config, height: JobId -> nat, w: World, t: TaskId)
    requires Acyclic(cfg.edges, height) && InRange(w.runs, w.tasks) && t < |w.tasks|
    ensures var tasks := Goto(w.tasks, t, Acking) + LeftBehind(w.tasks[t]);
            InRange(w.runs, tasks)
            && TasksWeight(cfg, height, w.runs, tasks) <= TasksWeight(cfg, height, w.runs, w.tasks)
  {
    var task := w.tasks[t];
    var moved := Goto(w.tasks, t, Acking);
    TasksUpdate(cfg, height, w.runs, w.tasks, t, task.(pc := Acking));
    if LeftBehind(task) == [] {
      assert moved + [] == moved;
    } else {
      var late := LeftBehind(task)[0];
      assert LeftBehind(task) == [late];
      if task.pc.FanOut? { TodoFirst(cfg, height, task.pc.todo); }
      TasksAppend(cfg, height, w.runs, moved, late);
    }
  }

  lemma StepBounded(cfg: Config, height: JobId -> nat, w: World, s: Step, w': World)
    requires Acyclic(cfg.edges, height) && InFlightKnown(w) && Next(cfg, w, s, w') && Internal(s)
    requires InRange(w.runs, w.tasks)
    ensures Bounded(cfg, height, w, w')
  {
    match s {
      case Advance(t, now) => AdvanceBounded(cfg, height, w, t, now, w');
      case Execute(t, result) => MoveBounded(cfg, height, w, t, Checking(result), w.runs);
      case Abort(t) => AbortBounded(cfg, height, w, t);
      case Deliver(m, k) =>
        assert Known(w.runs, w.stream[m].run);
        TasksAppend(cfg, height, w.runs, w.tasks, Task(k, m, w.stream[m].run, false, Start));
      case CancelRun(r) =>
        StatusWeight(cfg, height, w.runs, r, Canceled);
        TransactionsGrow(w.runs, r, false, Canceled, 0, 0.0);
        TasksStable(cfg, height, w.runs, w'.runs, w.tasks);
      case _ =>
    }
  }

  /**
   From any moment of a behaviour on, however long the system goes on by itself, it creates at
   most `Potential` more runs.
   */
  lemma {:induction false} CascadesEnd(cfg: Config, height: JobId -> nat, ws: seq<World>, ss: seq<Step>, i: nat, k: nat)
    requires Acyclic(cfg.edges, height) && Behavior(cfg, ws, ss) && i <= k < |ws|
    requires forall n :: i <= n < |ss| ==> Internal(ss[n])
    ensures InRange(ws[i].runs, ws[i].tasks) && InRange(ws[k].runs, ws[k].tasks)
    ensures |ws[k].runs| + Potential(cfg, height, ws[k]) <= |ws[i].runs| + Potential(cfg, height, ws[i])
    decreases k
  {
    KnownInRange(cfg, ws, ss, k);
    if i < k {
      CascadesEnd(cfg, height, ws, ss, i, k - 1);
      NothingInFlightIsPending(cfg, ws, ss, k - 1);
      assert StepAt(cfg, ws, ss, k - 1);
      StepBounded(cfg, height, ws[k - 1], ss[k - 1], ws[k]);
    }
  }

  lemma KnownInRange(cfg: Config, ws: seq<World>, ss: seq<Step>, i: nat)
    requires Behavior(cfg, ws, ss) && i < |ws|
    ensures InRange(ws[i].runs, ws[i].tasks)
  {
    NothingInFlightIsPending(cfg, ws, ss, i);
    forall t | 0 <= t < |ws[i].tasks| ensures ws[i].tasks[t].run < |ws[i].runs| {
      assert TaskKnown(ws[i].runs, ws[i].stream, ws[i].tasks[t]);
    }
  }
}
