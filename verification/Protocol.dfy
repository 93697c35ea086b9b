/**
 The run-lifecycle protocol as a step system.

 The state is the `job_runs` table, the dispatch stream with its pending-entry list, the
 delayed set, the ids that API and scheduler processes still have to publish, and every
 worker task with its program counter. Each database transaction and each Redis command is
 one step; between any two steps anything else may happen: crashes, duplicate entries,
 reclaims of idle entries, user cancels.
 */
module Protocol {
  import opened Runs
  import opened Store
  import opened RetryPolicy
  import Delayed
  import Trigger

  type WorkerId = nat
  type MsgId = nat
  type TaskId = nat

  /** `orphan_requeue_after_sec` */
  const ORPHAN_AFTER: real := 60.0

  /** Results an executor can produce, and those that `_on_failure` may retry. */
  type Outcome = s: Status | s.Succeeded? || s.Failed? || s.TimedOut? witness Succeeded
  type Failure = s: Status | s.Failed? || s.TimedOut? witness Failed

  /** Held: in the pending-entry list, last delivered to that task. */
  datatype EntryState = Unread | Held(task: TaskId) | Acked | Deleted

  datatype Entry = Entry(run: RunId, state: EntryState)

  /** Where `handle` / `process_run` is: at the await it will complete next. */
  datatype Pc =
    | Start                                        // claim_run
    | Executing                                    // the executor
    | Checking(result: Outcome)                    // is_run_canceled
    | Retrying(failure: Failure)                   // create_retry_run
    | Delaying(next: RunId, failure: Failure)      // schedule_delayed
    | Finishing(result: Outcome)                   // finish_run
    | Reading                                      // dependents_ready
    | FanOut(todo: seq<JobId>)                     // create_dependency_run for todo[0]
    | Sending(next: RunId, todo: seq<JobId>)       // enqueue_run
    | Acking                                       // xack
    | Deleting                                     // xdel
    | Done
    // A database call left behind in its thread by a task that was canceled while awaiting it.
    | LateRetry
    | LateFanOut(job: JobId)

  datatype Task = Task(worker: WorkerId, msg: MsgId, run: RunId, allowRunning: bool, pc: Pc)

  datatype World = World(
    runs: seq<Run>,
    stream: seq<Entry>,
    delayed: Delayed.Zset,
    outbox: multiset<RunId>,
    tasks: seq<Task>,
    dead: set<WorkerId>)

  const INIT := World([], [], map[], multiset{}, [], {})

  datatype Step =
    // API
    | TriggerJob(job: JobId, now: real)
    | RetryRun(run: RunId, now: real)
    | CancelRun(run: RunId)
    // scheduler
    | ScheduleTick(job: JobId, tick: int, now: real)
    | RequeueOrphans(now: real)
    | PromoteDelayed(now: real, due: seq<RunId>)
    // publishing what was committed, or dying before it
    | Publish(run: RunId)
    | LosePublish(run: RunId)
    // workers
    | Crash(worker: WorkerId)
    | Deliver(msg: MsgId, worker: WorkerId)
    | Reclaim(msg: MsgId, worker: WorkerId)
    | Execute(task: TaskId, result: Outcome)
    | Advance(task: TaskId, now: real)
    | Abort(task: TaskId)

  // ------------------------------------------------------- pieces

  predicate Live(w: World, t: TaskId) {
    t < |w.tasks| && w.tasks[t].worker !in w.dead
  }

  /** What the scheduler's query selects. */
  predicate Schedulable(cfg: Config, j: JobId) {
    j in cfg.jobs && cfg.jobs[j].enabled && cfg.jobs[j].scheduled
  }

  function MaxRetries(cfg: Config, j: JobId): nat {
    if j in cfg.jobs then cfg.jobs[j].maxRetries else 0
  }

  function BackoffBase(cfg: Config, j: JobId): nat {
    if j in cfg.jobs then cfg.jobs[j].backoffSec else 0
  }

  /** The delay `_on_failure` computes for a failed run. */
  function RetryDelay(cfg: Config, row: Run): real {
    BackoffSeconds(row.attempt, BackoffBase(cfg, row.job)) as real
  }

  /** `requeue_orphans` */
  function OrphanIds(runs: seq<Run>, now: real): (r: seq<RunId>)
    ensures forall k :: k in r <==>
              0 <= k < |runs| && runs[k].status == Queued && runs[k].createdAt < now - ORPHAN_AFTER
  {
    if runs == [] then []
    else
      var n := |runs| - 1;
      OrphanIds(runs[..n], now)
      + if runs[n].status == Queued && runs[n].createdAt < now - ORPHAN_AFTER then [n] else []
  }

  function Entries(ids: seq<RunId>): (r: seq<Entry>)
    ensures |r| == |ids| && forall i :: 0 <= i < |ids| ==> r[i] == Entry(ids[i], Unread)
  {
    seq(|ids|, i requires 0 <= i < |ids| => Entry(ids[i], Unread))
  }

  function Goto(tasks: seq<Task>, t: TaskId, pc: Pc): seq<Task>
    requires t < |tasks|
  {
    tasks[t := tasks[t].(pc := pc)]
  }

  function Mark(stream: seq<Entry>, m: MsgId, s: EntryState): seq<Entry> {
    if m < |stream| then stream[m := stream[m].(state := s)] else stream
  }

  /** Program points inside `process_run`, where the cancel listener can reach the task. */
  predicate InProcess(pc: Pc) {
    !(pc.Acking? || pc.Deleting? || pc.Done? || pc.LateRetry? || pc.LateFanOut?)
  }

  /** The thread a canceled task leaves behind, if the call it awaited inserts or promotes a row. */
  function LeftBehind(task: Task): seq<Task> {
    match task.pc
    case Retrying(_) => [task.(pc := LateRetry)]
    case FanOut(todo) => if todo == [] then [] else [task.(pc := LateFanOut(todo[0]))]
    case _ => []
  }

  // ------------------------------------------------------- steps

  ghost predicate Enabled(cfg: Config, w: World, s: Step) {
    match s
    case TriggerJob(job, _) => job in cfg.jobs
    case RetryRun(r, _) => r < |w.runs| && Terminal(w.runs[r].status)
    case CancelRun(r) => r < |w.runs|
    case ScheduleTick(job, _, _) => Schedulable(cfg, job)
    case RequeueOrphans(_) => true
    case PromoteDelayed(now, due) => Delayed.ZRange(w.delayed, now, due)
    case Publish(r) => r in w.outbox
    case LosePublish(r) => r in w.outbox
    case Crash(_) => true
    case Deliver(m, k) => m < |w.stream| && w.stream[m].state == Unread && k !in w.dead
    case Reclaim(m, k) => m < |w.stream| && w.stream[m].state.Held? && k !in w.dead
    case Execute(t, _) => Live(w, t) && w.tasks[t].pc == Executing
    case Advance(t, _) =>
      && Live(w, t) && w.tasks[t].pc != Executing && w.tasks[t].pc != Done
      && w.tasks[t].run < |w.runs|
    case Abort(t) => Live(w, t) && InProcess(w.tasks[t].pc) && IsRunCanceled(w.runs, w.tasks[t].run)
  }

  /** One database transaction, Redis command or local move of a task. */
  function AdvanceTask(cfg: Config, w: World, t: TaskId, now: real): World
    requires t < |w.tasks| && w.tasks[t].run < |w.runs|
  {
    var task := w.tasks[t];
    var row := w.runs[task.run];
    match task.pc
    case Start =>
      if Claimable(row.status, task.allowRunning)
      then w.(runs := ClaimRun(w.runs, task.run, task.allowRunning), tasks := Goto(w.tasks, t, Executing))
      else w.(tasks := Goto(w.tasks, t, Acking))
    case Checking(result) =>
      if IsRunCanceled(w.runs, task.run) then w.(tasks := Goto(w.tasks, t, Acking))
      else if result != Succeeded && ShouldRetry(row.attempt, MaxRetries(cfg, row.job))
      then w.(tasks := Goto(w.tasks, t, Retrying(result)))
      else w.(tasks := Goto(w.tasks, t, Finishing(result)))
    case Retrying(result) =>
      w.(runs := w.runs + [RetryRow(w.runs, task.run, now)],
         tasks := Goto(w.tasks, t, Delaying(|w.runs|, result)))
    case Delaying(next, result) =>
      w.(delayed := w.delayed[next := now + RetryDelay(cfg, row)],
         tasks := Goto(w.tasks, t, Finishing(result)))
    case Finishing(result) =>
      w.(runs := FinishRun(w.runs, task.run, result),
         tasks := Goto(w.tasks, t, if result == Succeeded then Reading else Acking))
    case Reading =>
      w.(tasks := Goto(w.tasks, t, FanOut(DependentsReady(cfg, w.runs, row.job))))
    case FanOut(todo) =>
      if todo == [] then w.(tasks := Goto(w.tasks, t, Acking))
      else
        var (runs', id) := CreateDependencyRun(w.runs, todo[0], now);
        w.(runs := runs',
           tasks := Goto(w.tasks, t, if id.None? then FanOut(todo[1..]) else Sending(id.value, todo[1..])))
    case Sending(next, todo) =>
      w.(stream := w.stream + [Entry(next, Unread)], tasks := Goto(w.tasks, t, FanOut(todo)))
    case Acking =>
      w.(stream := Mark(w.stream, task.msg, Acked), tasks := Goto(w.tasks, t, Deleting))
    case Deleting =>
      w.(stream := Mark(w.stream, task.msg, Deleted), tasks := Goto(w.tasks, t, Done))
    case LateRetry =>
      w.(runs := w.runs + [RetryRow(w.runs, task.run, now)], tasks := Goto(w.tasks, t, Done))
    case LateFanOut(j) =>
      w.(runs := CreateDependencyRun(w.runs, j, now).0, tasks := Goto(w.tasks, t, Done))
    case Executing => w
    case Done => w
  }

  function Apply(cfg: Config, w: World, s: Step): World
    requires Enabled(cfg, w, s)
  {
    match s
    case TriggerJob(job, now) =>
      (match Trigger.TriggerPlan(cfg.edges, w.runs, job, now)
       case Cyclic(_) => w
       case Plan(runs', publish, _) => w.(runs := runs', outbox := w.outbox + multiset(publish)))
    case RetryRun(r, now) =>
      var row := Run(w.runs[r].job, ApiRetry(r), Queued, w.runs[r].attempt + 1, now);
      w.(runs := w.runs + [row], outbox := w.outbox + multiset{|w.runs|})
    case CancelRun(r) => w.(runs := Store.CancelRun(w.runs, r))
    case ScheduleTick(job, tick, now) =>
      if TickTaken(w.runs, job, tick) then w
      else w.(runs := w.runs + [Run(job, Scheduled(tick), Queued, 1, now)],
              outbox := w.outbox + multiset{|w.runs|})
    case RequeueOrphans(now) => w.(outbox := w.outbox + multiset(OrphanIds(w.runs, now)))
    case PromoteDelayed(now, due) =>
      w.(delayed := w.delayed - Delayed.Due(w.delayed, now), stream := w.stream + Entries(due))
    case Publish(r) => w.(outbox := w.outbox - multiset{r}, stream := w.stream + [Entry(r, Unread)])
    case LosePublish(r) => w.(outbox := w.outbox - multiset{r})
    case Crash(k) => w.(dead := w.dead + {k})
    case Deliver(m, k) =>
      w.(stream := Mark(w.stream, m, Held(|w.tasks|)),
         tasks := w.tasks + [Task(k, m, w.stream[m].run, false, Start)])
    case Reclaim(m, k) =>
      w.(stream := Mark(w.stream, m, Held(|w.tasks|)),
         tasks := w.tasks + [Task(k, m, w.stream[m].run, true, Start)])
    case Execute(t, result) => w.(tasks := Goto(w.tasks, t, Checking(result)))
    case Advance(t, now) => AdvanceTask(cfg, w, t, now)
    case Abort(t) => w.(tasks := Goto(w.tasks, t, Acking) + LeftBehind(w.tasks[t]))
  }

  ghost predicate Next(cfg: Config, w: World, s: Step, w': World) {
    Enabled(cfg, w, s) && w' == Apply(cfg, w, s)
  }

  ghost predicate StepAt(cfg: Config, ws: seq<World>, ss: seq<Step>, i: nat) {
    i < |ss| && i + 1 < |ws| && Next(cfg, ws[i], ss[i], ws[i + 1])
  }

  /** A finite behaviour: the worlds it passes through and the steps between them. */
  ghost predicate Behavior(cfg: Config, ws: seq<World>, ss: seq<Step>) {
    && |ws| == |ss| + 1
    && ws[0] == INIT
    && (forall i :: 0 <= i < |ss| ==> StepAt(cfg, ws, ss, i))
  }

  // ------------------------------------------------------- the table only moves forward

  /** What the rest of the protocol needs of a trigger's transaction. */
  lemma TriggerExtends(cfg: Config, runs: seq<Run>, job: JobId, now: real, plan: Trigger.Plan)
    requires plan == Trigger.TriggerPlan(cfg.edges, runs, job, now) && plan.Plan?
    ensures runs <= plan.runs
    ensures forall b :: |runs| <= b < |plan.runs| ==>
      && plan.runs[b].status == (if Deps(cfg.edges, plan.runs[b].job) == [] then Queued else Pending)
      && (plan.runs[b].origin == Manual || plan.runs[b].origin == Planned)
      && plan.runs[b].attempt == 1
    ensures forall r :: r in plan.publish ==> |runs| <= r < |plan.runs| && plan.runs[r].status == Queued
  {
    Trigger.TriggerPlanCorrect(cfg.edges, runs, job, now, plan);
    forall b | |runs| <= b < |plan.runs|
      ensures plan.runs[b].status == (if Deps(cfg.edges, plan.runs[b].job) == [] then Queued else Pending)
      ensures plan.runs[b].origin == Manual || plan.runs[b].origin == Planned
      ensures plan.runs[b].attempt == 1
    {
      assert Trigger.NewRowOk(cfg.edges, runs, job, now, plan, b);
    }
  }

  lemma StepGrows(cfg: Config, w: World, s: Step, w': World)
    requires Next(cfg, w, s, w')
    ensures Grows(w.runs, w'.runs)
  {
    match s
    case TriggerJob(job, now) =>
      var plan := Trigger.TriggerPlan(cfg.edges, w.runs, job, now);
      if plan.Plan? { TriggerExtends(cfg, w.runs, job, now, plan); }
      AppendGrows(w.runs, w'.runs);
    case CancelRun(r) => TransactionsGrow(w.runs, r, false, Canceled, 0, 0.0);
    case Advance(t, now) => AdvanceGrows(cfg, w, t, now);
    case RetryRun(_, _) => AppendGrows(w.runs, w'.runs);
    case ScheduleTick(_, _, _) => AppendGrows(w.runs, w'.runs);
    case _ => AppendGrows(w.runs, w.runs);
  }

  lemma AdvanceGrows(cfg: Config, w: World, t: TaskId, now: real)
    requires t < |w.tasks| && w.tasks[t].run < |w.runs|
    ensures Grows(w.runs, AdvanceTask(cfg, w, t, now).runs)
  {
    var task := w.tasks[t];
    var w' := AdvanceTask(cfg, w, t, now);
    AppendGrows(w.runs, w.runs);
    match task.pc
    case Start => TransactionsGrow(w.runs, task.run, task.allowRunning, Failed, 0, now);
    case Retrying(_) => AppendGrows(w.runs, w'.runs);
    case LateRetry => AppendGrows(w.runs, w'.runs);
    case Finishing(result) => TransactionsGrow(w.runs, task.run, false, result, 0, now);
    case FanOut(todo) => if todo != [] { TransactionsGrow(w.runs, 0, false, Failed, todo[0], now); }
    case LateFanOut(j) => TransactionsGrow(w.runs, 0, false, Failed, j, now);
    case _ =>
  }
}
