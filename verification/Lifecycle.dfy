/**
 What every behaviour of the protocol keeps, whatever crashes, duplicates and reclaims occur:
 status order, and references that never name a PENDING run.
 */
module Lifecycle {
  import opened Runs
  import opened Store
  import opened Protocol
  import Trigger

  // ------------------------------------------------------- status order

  /**
   Between any two moments of a behaviour every row keeps its identity, the rank
   pending < queued < running < terminal never falls, and CANCELED is absorbing.
   */
  lemma {:induction false} StatusMonotone(cfg: Config, ws: seq<World>, ss: seq<Step>, i: nat, k: nat)
    requires Behavior(cfg, ws, ss) && i <= k < |ws|
    ensures Grows(ws[i].runs, ws[k].runs)
    decreases k
  {
    if i == k {
      AppendGrows(ws[i].runs, ws[i].runs);
    } else {
      StatusMonotone(cfg, ws, ss, i, k - 1);
      assert StepAt(cfg, ws, ss, k - 1);
      StepGrows(cfg, ws[k - 1], ss[k - 1], ws[k]);
      GrowsTrans(ws[i].runs, ws[k - 1].runs, ws[k].runs);
    }
  }

  // ------------------------------------------------------- nothing in flight is PENDING

  ghost predicate Known(runs: seq<Run>, r: RunId) {
    r < |runs| && runs[r].status != Pending
  }

  ghost predicate TaskKnown(runs: seq<Run>, stream: seq<Entry>, task: Task) {
    && Known(runs, task.run)
    && task.msg < |stream| && stream[task.msg].run == task.run
    && (task.pc.Delaying? || task.pc.Sending? ==> Known(runs, task.pc.next))
  }

  /** Every stream entry, delayed member, unpublished id and worker task names a run past PENDING. */
  ghost predicate InFlightKnown(w: World) {
    && (forall m :: 0 <= m < |w.stream| ==> Known(w.runs, w.stream[m].run))
    && (forall r :: r in w.delayed ==> Known(w.runs, r))
    && (forall r :: r in w.outbox ==> Known(w.runs, r))
    && (forall t :: 0 <= t < |w.tasks| ==> TaskKnown(w.runs, w.stream, w.tasks[t]))
  }

  /** Entries keep their run; the stream only grows. */
  ghost predicate StreamExtends(stream: seq<Entry>, stream': seq<Entry>) {
    |stream| <= |stream'| && forall m :: 0 <= m < |stream| ==> stream'[m].run == stream[m].run
  }

  lemma TaskKnownLater(runs: seq<Run>, stream: seq<Entry>, runs': seq<Run>, stream': seq<Entry>, task: Task)
    requires TaskKnown(runs, stream, task) && Grows(runs, runs') && StreamExtends(stream, stream')
    ensures TaskKnown(runs', stream', task)
  {}

  // Where new stream entries, delayed members, unpublished ids and program counters come from.

  ghost predicate EntrySource(w: World, s: Step, e: Entry) {
    && e.state == Unread
    && (|| (s.Publish? && e.run == s.run && s.run in w.outbox)
        || (s.PromoteDelayed? && e.run in w.delayed && w.delayed[e.run] <= s.now)
        || (s.Advance? && s.task < |w.tasks| && w.tasks[s.task].pc.Sending? && e.run == w.tasks[s.task].pc.next))
  }

  lemma StepEntries(cfg: Config, w: World, s: Step, w': World)
    requires Next(cfg, w, s, w')
    ensures StreamExtends(w.stream, w'.stream)
    ensures forall m :: |w.stream| <= m < |w'.stream| ==> EntrySource(w, s, w'.stream[m])
  {
    if s.PromoteDelayed? {
      forall m | |w.stream| <= m < |w'.stream| ensures EntrySource(w, s, w'.stream[m]) {
        assert w'.stream[m].run in s.due;
      }
    }
  }

  ghost predicate OutboxSource(w: World, s: Step, w': World, r: RunId) {
    && r < |w'.runs| && w'.runs[r].status == Queued
    && (|| (r >= |w.runs| && !w'.runs[r].origin.AutoRetry?)
        || (s.RequeueOrphans? && r < |w.runs| && w.runs[r].createdAt < s.now - ORPHAN_AFTER))
  }

  lemma TriggerOutbox(cfg: Config, w: World, job: JobId, now: real, w': World, plan: Trigger.Plan)
    requires plan == Trigger.TriggerPlan(cfg.edges, w.runs, job, now) && plan.Plan?
    requires w'.runs == plan.runs && w'.outbox == w.outbox + multiset(plan.publish)
    ensures forall r :: r in w'.outbox ==> r in w.outbox || OutboxSource(w, TriggerJob(job, now), w', r)
  {
    TriggerExtends(cfg, w.runs, job, now, plan);
    assert forall r :: r in w'.outbox ==> r in w.outbox || r in plan.publish;
  }

  lemma {:induction false} RequeueOutbox(w: World, now: real, w': World)
    requires w'.runs == w.runs && w'.outbox == w.outbox + multiset(OrphanIds(w.runs, now))
    ensures forall r :: r in w'.outbox ==> r in w.outbox || OutboxSource(w, RequeueOrphans(now), w', r)
  {
    assert forall r :: r in w'.outbox ==> r in w.outbox || r in OrphanIds(w.runs, now);
  }

  lemma StepOutbox(cfg: Config, w: World, s: Step, w': World)
    requires Next(cfg, w, s, w')
    ensures forall r :: r in w'.outbox ==> r in w.outbox || OutboxSource(w, s, w', r)
  {
    if s.TriggerJob? {
      var plan := Trigger.TriggerPlan(cfg.edges, w.runs, s.job, s.now);
      if plan.Plan? { TriggerOutbox(cfg, w, s.job, s.now, w', plan); }
    } else if s.RequeueOrphans? {
      RequeueOutbox(w, s.now, w');
    }
  }

  lemma StepDelayed(cfg: Config, w: World, s: Step, w': World)
    requires Next(cfg, w, s, w')
    ensures forall r :: r in w'.delayed ==>
              || (r in w.delayed && w'.delayed[r] == w.delayed[r])
              || (s.Advance? && w.tasks[s.task].pc.Delaying? && r == w.tasks[s.task].pc.next)
  {}

  /** A step changes the program counter of at most the task it names, and keeps its identity. */
  ghost predicate TaskSource(w: World, s: Step, w': World, t: TaskId)
    requires t < |w'.tasks|
  {
    if t < |w.tasks| then
      || w'.tasks[t] == w.tasks[t]
      || ((s.Advance? || s.Execute? || s.Abort?) && s.task == t && w'.tasks[t] == w.tasks[t].(pc := w'.tasks[t].pc))
    else
      // Tasks are added by a delivery, a reclaim or an interrupted call.
      && t == |w.tasks|
      && (|| ((s.Deliver? || s.Reclaim?) && s.msg < |w.stream|
              && w'.tasks[t] == Task(s.worker, s.msg, w.stream[s.msg].run, s.Reclaim?, Start))
          || (s.Abort? && s.task < |w.tasks| && LeftBehind(w.tasks[s.task]) == [w'.tasks[t]]))
  }

  lemma AdvanceTasks(cfg: Config, w: World, t: TaskId, now: real) returns (pc: Pc)
    requires t < |w.tasks| && w.tasks[t].run < |w.runs| && w.tasks[t].pc != Executing && w.tasks[t].pc != Done
    ensures AdvanceTask(cfg, w, t, now).tasks == Goto(w.tasks, t, pc)
  {
    pc := AdvanceTask(cfg, w, t, now).tasks[t].pc;
  }

  lemma StepTasks(cfg: Config, w: World, s: Step, w': World)
    requires Next(cfg, w, s, w')
    ensures |w.tasks| <= |w'.tasks|
    ensures forall t :: 0 <= t < |w'.tasks| ==> TaskSource(w, s, w', t)
  {
    if s.Advance? {
      var pc := AdvanceTasks(cfg, w, s.task, s.now);
    } else if s.Abort? {
      assert w'.tasks == Goto(w.tasks, s.task, Acking) + LeftBehind(w.tasks[s.task]);
    }
  }

  /** What a step does to task `t`: nothing, one move of its own, its execution's end, or an interruption. */
  ghost predicate TaskStep(cfg: Config, w: World, s: Step, w': World, t: TaskId)
    requires t < |w.tasks|
  {
    && |w.tasks| <= |w'.tasks| && w.dead <= w'.dead && (!s.Crash? ==> w'.dead == w.dead)
    && (|| w'.tasks[t] == w.tasks[t]
        || (s.Advance? && s.task == t && w.tasks[t].run < |w.runs|
            && w.tasks[t].pc != Executing && w.tasks[t].pc != Done
            && w' == AdvanceTask(cfg, w, t, s.now))
        || (s.Execute? && s.task == t && w.tasks[t].pc == Executing
            && w' == w.(tasks := Goto(w.tasks, t, Checking(s.result))))
        || (s.Abort? && s.task == t && InProcess(w.tasks[t].pc) && IsRunCanceled(w.runs, w.tasks[t].run)
            && w'.tasks[t] == w.tasks[t].(pc := Acking) && w'.runs == w.runs && w'.stream == w.stream))
  }

  lemma StepTask(cfg: Config, w: World, s: Step, w': World, t: TaskId)
    requires Next(cfg, w, s, w') && t < |w.tasks|
    ensures TaskStep(cfg, w, s, w', t)
  {}

  /** The run a retry or fan-out has just inserted or promoted is QUEUED. */
  lemma AdvanceNext(cfg: Config, w: World, t: TaskId, now: real)
    requires t < |w.tasks| && w.tasks[t].run < |w.runs|
    ensures var pc := AdvanceTask(cfg, w, t, now).tasks[t].pc;
            pc.Delaying? || pc.Sending? ==>
              pc.next < |AdvanceTask(cfg, w, t, now).runs| && AdvanceTask(cfg, w, t, now).runs[pc.next].status == Queued
  {
    match w.tasks[t].pc
    case Retrying(_) => assert AdvanceTask(cfg, w, t, now).tasks[t].pc.next == |w.runs|;
    case FanOut(todo) => if todo != [] { var (runs', id) := CreateDependencyRun(w.runs, todo[0], now); }
    case _ =>
  }

  lemma StepNext(cfg: Config, w: World, s: Step, w': World)
    requires Next(cfg, w, s, w')
    ensures (s.Advance? || s.Execute? || s.Abort?)
            && (w'.tasks[s.task].pc.Delaying? || w'.tasks[s.task].pc.Sending?) ==>
              Known(w'.runs, w'.tasks[s.task].pc.next)
  {
    if s.Advance? { AdvanceNext(cfg, w, s.task, s.now); }
  }

  /** Every insertion: first attempts, and retries that continue their parent's count. */
  ghost predicate Birth(w: World, s: Step, row: Run) {
    match row.origin
    case AutoRetry(p) =>
      && s.Advance? && s.task < |w.tasks| && (w.tasks[s.task].pc.Retrying? || w.tasks[s.task].pc.LateRetry?)
      && p == w.tasks[s.task].run < |w.runs| && row == RetryRow(w.runs, p, s.now)
    case ApiRetry(p) =>
      && s == RetryRun(p, row.createdAt) && p < |w.runs| && Terminal(w.runs[p].status)
      && row.job == w.runs[p].job && row.attempt == w.runs[p].attempt + 1
    case _ => row.attempt == 1
  }

  lemma StepBirth(cfg: Config, w: World, s: Step, w': World, r: RunId)
    requires Next(cfg, w, s, w') && |w.runs| <= r < |w'.runs|
    ensures Birth(w, s, w'.runs[r])
  {
    if s.TriggerJob? {
      var plan := Trigger.TriggerPlan(cfg.edges, w.runs, s.job, s.now);
      if plan.Plan? { TriggerExtends(cfg, w.runs, s.job, s.now, plan); }
    }
  }

  /** Which step inserts a row that is no retry, and with what in its columns. */
  ghost predicate FirstAttempt(cfg: Config, w: World, s: Step, row: Run) {
    && row.attempt == 1
    && (row.origin == Manual ==> s == Step.TriggerJob(row.job, row.createdAt))
    && (row.origin == Planned ==> s.TriggerJob? && s.job != row.job && s.now == row.createdAt)
    && (row.origin in {Manual, Planned} ==>
          row.status == if exists d :: Edge(row.job, d) in cfg.edges then Pending else Queued)
    && (row.origin.Scheduled? ==>
          && s == ScheduleTick(row.job, row.origin.tick, row.createdAt) && row.status == Queued
          && !TickTaken(w.runs, row.job, row.origin.tick))
    && (row.origin == FannedOut ==>
          && s.Advance? && s.task < |w.tasks| && s.now == row.createdAt && row.status == Queued
          && (w.tasks[s.task].pc == LateFanOut(row.job)
              || (w.tasks[s.task].pc.FanOut? && row.job in w.tasks[s.task].pc.todo)))
  }

  /** Every row ever inserted: the step that does it determines its columns. */
  lemma InsertionsExact(cfg: Config, w: World, s: Step, w': World, r: RunId)
    requires Next(cfg, w, s, w') && |w.runs| <= r < |w'.runs|
    ensures if w'.runs[r].origin.AutoRetry? || w'.runs[r].origin.ApiRetry?
            then Birth(w, s, w'.runs[r]) && w'.runs[r].status == Queued
            else FirstAttempt(cfg, w, s, w'.runs[r])
  {
    StepBirth(cfg, w, s, w', r);
    if s.TriggerJob? {
      var plan := Trigger.TriggerPlan(cfg.edges, w.runs, s.job, s.now);
      if plan.Plan? {
        TriggerExtends(cfg, w.runs, s.job, s.now, plan);
        Trigger.TriggerPlanCorrect(cfg.edges, w.runs, s.job, s.now, plan);
        assert Trigger.NewRowOk(cfg.edges, w.runs, s.job, s.now, plan, r);
        TriggeredRow(cfg, w, s, plan, r);
      }
    }
  }

  lemma TriggeredRow(cfg: Config, w: World, s: Step, plan: Trigger.Plan, r: RunId)
    requires s.TriggerJob? && plan.Plan? && r < |plan.runs|
    requires Trigger.NewRowOk(cfg.edges, w.runs, s.job, s.now, plan, r)
    ensures FirstAttempt(cfg, w, s, plan.runs[r])
  {
    var deps := Deps(cfg.edges, plan.runs[r].job);
    if deps != [] { assert Edge(plan.runs[r].job, deps[0]) in cfg.edges; }
  }

  lemma InFlightKnownStep(cfg: Config, w: World, s: Step, w': World)
    requires InFlightKnown(w) && Next(cfg, w, s, w')
    ensures InFlightKnown(w')
  {
    StepGrows(cfg, w, s, w');
    StepEntries(cfg, w, s, w');
    StepOutbox(cfg, w, s, w');
    StepDelayed(cfg, w, s, w');
    StepTasks(cfg, w, s, w');
    StepNext(cfg, w, s, w');
    KnownFromSources(w, s, w');
  }

  lemma KnownFromSources(w: World, s: Step, w': World)
    requires InFlightKnown(w) && Grows(w.runs, w'.runs) && StreamExtends(w.stream, w'.stream)
    requires forall m :: |w.stream| <= m < |w'.stream| ==> EntrySource(w, s, w'.stream[m])
    requires forall r :: r in w'.outbox ==> r in w.outbox || OutboxSource(w, s, w', r)
    requires forall r :: r in w'.delayed ==>
               r in w.delayed
               || (s.Advance? && s.task < |w.tasks| && w.tasks[s.task].pc.Delaying? && r == w.tasks[s.task].pc.next)
    requires |w.tasks| <= |w'.tasks| && forall t :: 0 <= t < |w'.tasks| ==> TaskSource(w, s, w', t)
    requires (s.Advance? || s.Execute? || s.Abort?) && s.task < |w.tasks| ==>
               w'.tasks[s.task].pc.Delaying? || w'.tasks[s.task].pc.Sending? ==>
                     Known(w'.runs, w'.tasks[s.task].pc.next)
    ensures InFlightKnown(w')
  {
    if s.Advance? && s.task < |w.tasks| { assert TaskKnown(w.runs, w.stream, w.tasks[s.task]); }
    forall t | 0 <= t < |w'.tasks| ensures TaskKnown(w'.runs, w'.stream, w'.tasks[t]) {
      KnownTask(w, s, w', t);
    }
    forall m | 0 <= m < |w'.stream| ensures Known(w'.runs, w'.stream[m].run) {
      if m >= |w.stream| { assert EntrySource(w, s, w'.stream[m]); }
    }
  }

  lemma KnownTask(w: World, s: Step, w': World, t: TaskId)
    requires InFlightKnown(w) && Grows(w.runs, w'.runs) && StreamExtends(w.stream, w'.stream)
    requires |w.tasks| <= |w'.tasks| && t < |w'.tasks| && TaskSource(w, s, w', t)
    requires (s.Advance? || s.Execute? || s.Abort?) && s.task < |w.tasks| ==>
               w'.tasks[s.task].pc.Delaying? || w'.tasks[s.task].pc.Sending? ==>
                     Known(w'.runs, w'.tasks[s.task].pc.next)
    ensures TaskKnown(w'.runs, w'.stream, w'.tasks[t])
  {
    if t < |w.tasks| { TaskKnownLater(w.runs, w.stream, w'.runs, w'.stream, w.tasks[t]); }
    else if s.Abort? { assert TaskKnown(w.runs, w.stream, w.tasks[s.task]); }
  }

  lemma {:induction false} NothingInFlightIsPending(cfg: Config, ws: seq<World>, ss: seq<Step>, i: nat)
    requires Behavior(cfg, ws, ss) && i < |ws|
    ensures InFlightKnown(ws[i])
  {
    if i > 0 {
      NothingInFlightIsPending(cfg, ws, ss, i - 1);
      assert StepAt(cfg, ws, ss, i - 1);
      InFlightKnownStep(cfg, ws[i - 1], ss[i - 1], ws[i]);
    }
  }
}
