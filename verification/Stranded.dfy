/**
 Which PENDING runs can still be promoted without help from a user.

 A PENDING run waits for a fan-out that names its job, and that may take successes of other jobs
 first, which may themselves wait for fan-outs. The condition therefore recurses on the
 dependency graph. This module states it and proves that a run which does not meet it stays
 PENDING; `Promotion` proves that one which meets it can finish.
 */
module Stranded {
  import opened Runs
  import opened Store
  import opened RetryPolicy
  import opened Protocol
  import opened Lifecycle
  import opened Claims
  import opened Recovery

  // ------------------------------------------------------- what a job can still do

  ghost predicate Works(w: World, t: TaskId, d: JobId) {
    Live(w, t) && w.tasks[t].run < |w.runs| && w.runs[w.tasks[t].run].job == d
  }

  /** A live task that can still bring run `x` to SUCCEEDED. */
  ghost predicate Wins(w: World, t: TaskId, x: RunId) {
    && Live(w, t) && w.tasks[t].run == x < |w.runs| && w.runs[x].status != Canceled
    && (w.tasks[t].pc == Executing || w.tasks[t].pc == Checking(Succeeded) || w.tasks[t].pc == Finishing(Succeeded))
  }

  ghost predicate Winning(w: World, t: TaskId, d: JobId) {
    Works(w, t, d) && Wins(w, t, w.tasks[t].run)
  }

  /** A live task that is going to insert a retry. */
  ghost predicate Retrier(cfg: Config, w: World, t: TaskId, d: JobId) {
    && Works(w, t, d)
    && (|| w.tasks[t].pc.Retrying? || w.tasks[t].pc.LateRetry?
        || (w.tasks[t].pc.Checking? && w.tasks[t].pc.result != Succeeded
            && w.runs[w.tasks[t].run].status != Canceled
            && ShouldRetry(w.runs[w.tasks[t].run].attempt, MaxRetries(cfg, d))))
  }

  /** A live task that will claim RUNNING run `x` or put it back on its way to the stream. */
  ghost predicate Returns(w: World, t: TaskId, x: RunId) {
    && Live(w, t)
    && (|| (w.tasks[t].run == x && w.tasks[t].pc == Start && w.tasks[t].allowRunning)
        || ((w.tasks[t].pc.Sending? || w.tasks[t].pc.Delaying?) && w.tasks[t].pc.next == x))
  }

  /** RUNNING run `x` can be delivered once more, or is being executed. */
  ghost predicate Winnable(w: World, x: RunId)
    requires x < |w.runs|
  {
    || x in w.outbox || x in w.delayed
    || (exists m :: Pointed(w, m, x))
    || (exists t :: Returns(w, t, x))
    || (exists t :: Wins(w, t, x))
  }

  ghost predicate WinnableRow(w: World, x: RunId, d: JobId) {
    && x < |w.runs| && w.runs[x].job == d
    && (w.runs[x].status == Queued || (w.runs[x].status == Running && Winnable(w, x)))
  }

  /** Job `d` has a run, or a task about to insert one, that can still succeed. */
  ghost predicate Source(cfg: Config, w: World, d: JobId) {
    || (exists x :: WinnableRow(w, x, d))
    || (exists t :: Winning(w, t, d))
    || (exists t :: Retrier(cfg, w, t, d))
  }

  /** A live task of job `d` that is going to fan out. */
  ghost predicate TokenAt(w: World, t: TaskId, d: JobId) {
    Works(w, t, d) && (w.tasks[t].pc == Finishing(Succeeded) || w.tasks[t].pc == Reading)
  }

  ghost predicate Token(w: World, d: JobId) {
    exists t :: TokenAt(w, t, d)
  }

  /** A live task has job `d` on its fan-out list. */
  ghost predicate NamesAt(w: World, t: TaskId, d: JobId) {
    && Live(w, t)
    && (|| ((w.tasks[t].pc.FanOut? || w.tasks[t].pc.Sending?) && d in w.tasks[t].pc.todo)
        || (w.tasks[t].pc.LateFanOut? && w.tasks[t].pc.job == d))
  }

  ghost predicate Named(w: World, d: JobId) {
    exists t :: NamesAt(w, t, d)
  }

  /** A lost RUNNING run keeps job `d` dispatched for ever, so no fan-out can reach it. */
  ghost predicate LostAt(w: World, x: RunId, d: JobId) {
    x < |w.runs| && w.runs[x].job == d && w.runs[x].status == Running && !Recoverable(w, x)
  }

  ghost predicate Blocked(w: World, d: JobId) {
    exists x :: LostAt(w, x, d)
  }

  ghost predicate HasPending(runs: seq<Run>, d: JobId) {
    exists x :: 0 <= x < |runs| && runs[x].job == d && runs[x].status == Pending
  }

  /** A fan-out may start job `d`. */
  ghost predicate Startable(cfg: Config, w: World, d: JobId) {
    d in cfg.jobs && (cfg.jobs[d].enabled || HasPending(w.runs, d))
  }

  /**
   Job `d` can still have a success: by the scheduler, by a run it has, by a fan-out that names
   it, or by a fan-out that its dependencies can still cause. `n` bounds the depth of the last.
   */
  ghost predicate CanSucceed(cfg: Config, w: World, d: JobId, n: nat)
    decreases n, 0
  {
    || Schedulable(cfg, d)
    || Source(cfg, w, d)
    || (n > 0 && !Blocked(w, d) && (Named(w, d) || Fed(cfg, w, d, n - 1)))
  }

  /** Every dependency of `d` has succeeded or can, and one of them can still fan out. */
  ghost predicate Fed(cfg: Config, w: World, d: JobId, n: nat)
    decreases n, 1
  {
    && Startable(cfg, w, d)
    && (forall e :: e in Deps(cfg.edges, d) ==> HasSucceeded(w.runs, e) || CanSucceed(cfg, w, e, n))
    && (exists e :: e in Deps(cfg.edges, d) && (Token(w, e) || CanSucceed(cfg, w, e, n)))
  }

  /** A fan-out can still reach a PENDING run of job `j`. */
  ghost predicate Promotable(cfg: Config, w: World, j: JobId) {
    !Blocked(w, j) && (Named(w, j) || exists n: nat :: Fed(cfg, w, j, n))
  }

  // ------------------------------------------------------- what an automatic step does

  /** Where the row `x` of the new table comes from. */
  ghost predicate RowFrom(cfg: Config, w: World, s: Step, w': World, x: RunId)
    requires x < |w'.runs|
  {
    var row := w'.runs[x];
    || (x < |w.runs| && row == w.runs[x])
    || (x < |w.runs| && row == w.runs[x].(status := Running) && ClaimsRun(w, s, x))
    || (x < |w.runs| && s.Advance? && s.task < |w.tasks| && w.tasks[s.task].run == x && w.tasks[s.task].pc.Finishing?
        && w.runs[x].status != Canceled && row == w.runs[x].(status := w.tasks[s.task].pc.result))
    || (row.status == Queued && s.Advance? && s.task < |w.tasks| && NamesAt(w, s.task, row.job)
        && !w.tasks[s.task].pc.Sending? && !HasDispatched(w.runs, row.job)
        && (if x < |w.runs| then w.runs[x].status == Pending && row == w.runs[x].(status := Queued) else x == |w.runs|))
    || (x == |w.runs| && row.status == Queued && s.Advance? && Retrier(cfg, w, s.task, row.job))
    || (x == |w.runs| && row.status == Queued && s.ScheduleTick? && s.job == row.job && Schedulable(cfg, row.job))
  }

  lemma AdvanceRow(cfg: Config, w: World, t: TaskId, now: real, w': World, x: RunId)
    requires Next(cfg, w, Advance(t, now), w') && x < |w'.runs|
    ensures RowFrom(cfg, w, Advance(t, now), w', x)
  {}

  lemma AutoRow(cfg: Config, w: World, s: Step, w': World, x: RunId)
    requires Next(cfg, w, s, w') && Automatic(s) && x < |w'.runs|
    ensures RowFrom(cfg, w, s, w', x)
  {
    if s.Advance? { AdvanceRow(cfg, w, s.task, s.now, w', x); }
  }

  /** Where the program counter `pc` of task `t` comes from. */
  ghost predicate PcFrom(cfg: Config, w: World, t: TaskId, pc: Pc)
    requires t < |w.tasks| && w.tasks[t].run < |w.runs|
  {
    var task, row := w.tasks[t], w.runs[w.tasks[t].run];
    match pc
    case Start => false
    case Executing => task.pc == Start && Claimable(row.status, task.allowRunning)
    case Checking(_) => false
    case Retrying(f) =>
      task.pc == Checking(f) && row.status != Canceled && ShouldRetry(row.attempt, MaxRetries(cfg, row.job))
    case Delaying(next, f) => task.pc == Retrying(f) && next == |w.runs|
    case Finishing(f) =>
      (task.pc == Checking(f) && row.status != Canceled) || (task.pc.Delaying? && task.pc.failure == f)
    case Reading => task.pc == Finishing(Succeeded)
    case FanOut(todo) =>
      || (task.pc == Reading && todo == DependentsReady(cfg, w.runs, row.job))
      || ((task.pc.FanOut? || task.pc.Sending?) && forall d :: d in todo ==> d in task.pc.todo)
    case Sending(next, todo) => task.pc.FanOut? && forall d :: d in todo ==> d in task.pc.todo
    case LateRetry => false
    case LateFanOut(_) => false
    case _ => true
  }

  lemma AdvancePcFrom(cfg: Config, w: World, t: TaskId, now: real)
    requires t < |w.tasks| && w.tasks[t].run < |w.runs| && w.tasks[t].pc != Executing && w.tasks[t].pc != Done
    ensures var w' := AdvanceTask(cfg, w, t, now);
            && |w'.tasks| == |w.tasks| && w'.tasks == Goto(w.tasks, t, w'.tasks[t].pc) && w'.dead == w.dead
            && PcFrom(cfg, w, t, w'.tasks[t].pc)
            && (w'.tasks[t].pc.Sending? ==>
                  w'.tasks[t].pc.next < |w'.runs| && w'.runs[w'.tasks[t].pc.next].status == Queued)
  {}

  /** Where task `t` of the new world comes from. */
  ghost predicate TaskFrom(cfg: Config, w: World, s: Step, w': World, t: TaskId)
    requires t < |w'.tasks|
  {
    || (t < |w.tasks| && w'.tasks[t] == w.tasks[t])
    || (t < |w.tasks| && s.Advance? && s.task == t && w.tasks[t].run < |w.runs|
        && w'.tasks[t] == w.tasks[t].(pc := w'.tasks[t].pc)
        && PcFrom(cfg, w, t, w'.tasks[t].pc)
        && (w'.tasks[t].pc.Sending? ==>
              w'.tasks[t].pc.next < |w'.runs| && w'.runs[w'.tasks[t].pc.next].status == Queued))
    || (t < |w.tasks| && s.Execute? && s.task == t && w.tasks[t].pc == Executing
        && w'.tasks[t] == w.tasks[t].(pc := Checking(s.result)))
    || (t == |w.tasks| && w'.tasks[t].pc == Start && (s.Deliver? || s.Reclaim?)
        && s.msg < |w.stream| && w'.tasks[t].run == w.stream[s.msg].run && w'.tasks[t].allowRunning == s.Reclaim?
        && (s.Reclaim? ==> w.stream[s.msg].state.Held?))
  }

  lemma AutoTask(cfg: Config, w: World, s: Step, w': World, t: TaskId)
    requires Next(cfg, w, s, w') && Automatic(s) && t < |w'.tasks|
    ensures TaskFrom(cfg, w, s, w', t) && w'.dead == w.dead && |w.tasks| <= |w'.tasks|
  {
    if s.Advance? { AdvancePcFrom(cfg, w, s.task, s.now); }
  }

  /** Entries, unpublished ids and delayed members that are new. */
  ghost predicate RefsFrom(w: World, s: Step, w': World) {
    && |w.stream| <= |w'.stream| && (s.Advance? ==> Live(w, s.task))
    && (forall m: MsgId, x: RunId :: Pointed(w', m, x) ==>
          Pointed(w, m, x) || (|w.stream| <= m < |w'.stream| && EntrySource(w, s, w'.stream[m])))
    && (forall x :: x in w'.outbox ==> x in w.outbox || (x < |w'.runs| && w'.runs[x].status == Queued))
    && (forall x :: x in w'.delayed ==>
          || x in w.delayed
          || (s.Advance? && s.task < |w.tasks| && w.tasks[s.task].pc.Delaying? && x == w.tasks[s.task].pc.next))
  }

  ghost predicate RowsFrom(cfg: Config, w: World, s: Step, w': World) {
    Grows(w.runs, w'.runs) && forall x :: 0 <= x < |w'.runs| ==> RowFrom(cfg, w, s, w', x)
  }

  ghost predicate TasksFrom(cfg: Config, w: World, s: Step, w': World) {
    && w'.dead == w.dead && |w.tasks| <= |w'.tasks|
    && forall t :: 0 <= t < |w'.tasks| ==> TaskFrom(cfg, w, s, w', t)
  }

  /** All that is needed of an automatic step, without the step system. */
  ghost predicate AutoStep(cfg: Config, w: World, s: Step, w': World) {
    && InFlightKnown(w) && InFlightKnown(w')
    && RowsFrom(cfg, w, s, w') && TasksFrom(cfg, w, s, w') && RefsFrom(w, s, w')
  }

  lemma AutoEntries(cfg: Config, w: World, s: Step, w': World, m: MsgId, x: RunId)
    requires Next(cfg, w, s, w') && Automatic(s) && Pointed(w', m, x)
    ensures Pointed(w, m, x) || (|w.stream| <= m < |w'.stream| && EntrySource(w, s, w'.stream[m]))
  {
    StepEntries(cfg, w, s, w');
  }

  lemma AutoRefs(cfg: Config, w: World, s: Step, w': World)
    requires Next(cfg, w, s, w') && Automatic(s)
    ensures RefsFrom(w, s, w')
  {
    StepEntries(cfg, w, s, w');
    StepOutbox(cfg, w, s, w');
    StepDelayed(cfg, w, s, w');
    forall m: MsgId, x: RunId | Pointed(w', m, x)
      ensures Pointed(w, m, x) || (|w.stream| <= m < |w'.stream| && EntrySource(w, s, w'.stream[m]))
    {
      AutoEntries(cfg, w, s, w', m, x);
    }
  }

  lemma AutoRows(cfg: Config, w: World, s: Step, w': World)
    requires Next(cfg, w, s, w') && Automatic(s)
    ensures RowsFrom(cfg, w, s, w')
  {
    StepGrows(cfg, w, s, w');
    forall x | 0 <= x < |w'.runs| ensures RowFrom(cfg, w, s, w', x) { AutoRow(cfg, w, s, w', x); }
  }

  lemma AutoTasks(cfg: Config, w: World, s: Step, w': World)
    requires Next(cfg, w, s, w') && Automatic(s)
    ensures TasksFrom(cfg, w, s, w')
  {
    StepTasks(cfg, w, s, w');
    AutoDead(cfg, w, s, w');
    forall t | 0 <= t < |w'.tasks| ensures TaskFrom(cfg, w, s, w', t) { AutoTask(cfg, w, s, w', t); }
  }

  lemma AutoDead(cfg: Config, w: World, s: Step, w': World)
    requires Next(cfg, w, s, w') && Automatic(s)
    ensures w'.dead == w.dead
  {}

  lemma Summary(cfg: Config, w: World, s: Step, w': World)
    requires Next(cfg, w, s, w') && Automatic(s) && InFlightKnown(w)
    ensures AutoStep(cfg, w, s, w')
  {
    InFlightKnownStep(cfg, w, s, w');
    AutoRows(cfg, w, s, w');
    AutoTasks(cfg, w, s, w');
    AutoRefs(cfg, w, s, w');
  }

  // ------------------------------------------------------- nothing becomes possible by itself

  /** A run that is RUNNING before and after can be won after the step only if it could before. */
  lemma WinnableBack(cfg: Config, w: World, s: Step, w': World, x: RunId)
    requires AutoStep(cfg, w, s, w') && x < |w.runs| && w.runs[x].status == Running
    requires w'.runs[x].status == Running && Winnable(w', x)
    ensures Winnable(w, x)
  {
    if x in w'.delayed && x !in w.delayed {
      assert Returns(w, s.task, x);
    } else if m: MsgId :| Pointed(w', m, x) {
      if !Pointed(w, m, x) && s.Advance? { assert Returns(w, s.task, x); }
    } else if t: TaskId :| Returns(w', t, x) {
      assert TaskFrom(cfg, w, s, w', t);
      if t >= |w.tasks| { assert Pointed(w, s.msg, x); }
      else { assert Returns(w, t, x); }
    } else if t: TaskId :| Wins(w', t, x) {
      WinsBack(cfg, w, s, w', t, x);
    }
  }

  lemma WinsBack(cfg: Config, w: World, s: Step, w': World, t: TaskId, x: RunId)
    requires AutoStep(cfg, w, s, w') && Wins(w', t, x)
    ensures t < |w.tasks| && x < |w.runs| && w.runs[x].status != Canceled
    ensures Wins(w, t, x) || (w.runs[x].status == Running && Returns(w, t, x)) || w.runs[x].status == Queued
  {
    assert TaskFrom(cfg, w, s, w', t);
    assert TaskKnown(w.runs, w.stream, w.tasks[t]);
  }

  /** A task past its claim works on a row of the same job as before. */
  lemma WorksBack(cfg: Config, w: World, s: Step, w': World, t: TaskId, d: JobId)
    requires AutoStep(cfg, w, s, w') && Works(w', t, d) && t < |w.tasks|
    ensures Works(w, t, d) && w'.tasks[t].run == w.tasks[t].run
  {
    assert TaskFrom(cfg, w, s, w', t) && TaskKnown(w.runs, w.stream, w.tasks[t]);
  }

  lemma RetrierBack(cfg: Config, w: World, s: Step, w': World, t: TaskId, d: JobId)
    requires AutoStep(cfg, w, s, w') && Retrier(cfg, w', t, d)
    ensures Retrier(cfg, w, t, d) || Winning(w, t, d)
  {
    assert TaskFrom(cfg, w, s, w', t);
    WorksBack(cfg, w, s, w', t, d);
  }

  lemma {:induction false} RowBack(cfg: Config, w: World, s: Step, w': World, x: RunId, d: JobId)
    requires AutoStep(cfg, w, s, w') && WinnableRow(w', x, d)
    ensures CanSucceed(cfg, w, d, 1)
  {
    assert RowFrom(cfg, w, s, w', x);
    if x < |w.runs| && w.runs[x].status == Running && w'.runs[x].status == Running {
      WinnableBack(cfg, w, s, w', x);
      assert WinnableRow(w, x, d);
    } else if x < |w.runs| && ClaimsRun(w, s, x) {
      assert TaskKnown(w.runs, w.stream, w.tasks[s.task]);
      assert WinnableRow(w, x, d);
    } else if x < |w.runs| && w.runs[x].status == Queued {
      assert WinnableRow(w, x, d);
    } else if s.Advance? && NamesAt(w, s.task, d) && !HasDispatched(w.runs, d) {
      NotDispatchedNotBlocked(w, d);
    }
  }

  lemma NotDispatchedNotBlocked(w: World, d: JobId)
    requires !HasDispatched(w.runs, d)
    ensures !Blocked(w, d)
  {}

  lemma {:induction false} SourceBack(cfg: Config, w: World, s: Step, w': World, d: JobId)
    requires AutoStep(cfg, w, s, w') && Source(cfg, w', d)
    ensures CanSucceed(cfg, w, d, 1)
  {
    if x: RunId :| WinnableRow(w', x, d) {
      RowBack(cfg, w, s, w', x, d);
    } else if t: TaskId :| Winning(w', t, d) {
      var x := w'.tasks[t].run;
      WinsBack(cfg, w, s, w', t, x);
      WorksBack(cfg, w, s, w', t, d);
      if !Winning(w, t, d) { assert WinnableRow(w, x, d); }
    } else {
      var t: TaskId :| Retrier(cfg, w', t, d);
      RetrierBack(cfg, w, s, w', t, d);
    }
  }

  lemma TokenBack(cfg: Config, w: World, s: Step, w': World, d: JobId)
    requires AutoStep(cfg, w, s, w') && Token(w', d)
    ensures Token(w, d) || Source(cfg, w, d)
  {
    var t: TaskId :| TokenAt(w', t, d);
    assert TaskFrom(cfg, w, s, w', t);
    WorksBack(cfg, w, s, w', t, d);
    if !TokenAt(w, t, d) { assert Winning(w, t, d); }
  }

  lemma SucceededBack(cfg: Config, w: World, s: Step, w': World, d: JobId)
    requires AutoStep(cfg, w, s, w') && HasSucceeded(w'.runs, d)
    ensures HasSucceeded(w.runs, d) || Source(cfg, w, d)
  {
    var x :| 0 <= x < |w'.runs| && w'.runs[x].job == d && w'.runs[x].status == Succeeded;
    assert RowFrom(cfg, w, s, w', x);
    if w.runs[x].status != Succeeded { assert Winning(w, s.task, d); }
  }

  /** A fan-out list is read when the job is ready, or was there before. */
  lemma {:induction false} NamedBack(cfg: Config, w: World, s: Step, w': World, d: JobId)
    requires AutoStep(cfg, w, s, w') && Named(w', d)
    ensures Named(w, d) || (!Blocked(w, d) && Fed(cfg, w, d, 0))
  {
    var t: TaskId :| NamesAt(w', t, d);
    assert TaskFrom(cfg, w, s, w', t);
    if t < |w.tasks| && w.tasks[t].pc == Reading && w'.tasks[t].pc.FanOut? {
      ReadyIsFed(cfg, w, t, d);
    } else {
      assert NamesAt(w, t, d);
    }
  }

  lemma {:induction false} ReadyIsFed(cfg: Config, w: World, t: TaskId, d: JobId)
    requires Live(w, t) && w.tasks[t].run < |w.runs| && w.tasks[t].pc == Reading
    requires d in DependentsReady(cfg, w.runs, w.runs[w.tasks[t].run].job)
    ensures !Blocked(w, d) && Fed(cfg, w, d, 0)
  {
    var e := w.runs[w.tasks[t].run].job;
    assert TokenAt(w, t, e) && Edge(d, e) in cfg.edges;
    NotDispatchedNotBlocked(w, d);
    assert e in Deps(cfg.edges, d) && Token(w, e);
  }

  lemma StartableBack(cfg: Config, w: World, s: Step, w': World, d: JobId)
    requires AutoStep(cfg, w, s, w') && Startable(cfg, w', d)
    ensures Startable(cfg, w, d)
  {
    if HasPending(w'.runs, d) {
      var x :| 0 <= x < |w'.runs| && w'.runs[x].job == d && w'.runs[x].status == Pending;
      assert RowFrom(cfg, w, s, w', x);
    }
  }

  lemma BlockedStays(cfg: Config, w: World, s: Step, w': World, d: JobId)
    requires Next(cfg, w, s, w') && Automatic(s) && Blocked(w, d)
    ensures Blocked(w', d)
  {
    var x: RunId :| LostAt(w, x, d);
    LostStep(cfg, w, s, w', x);
    StepGrows(cfg, w, s, w');
    assert LostAt(w', x, d);
  }

  lemma {:induction false} CanSucceedMore(cfg: Config, w: World, d: JobId, n: nat)
    requires CanSucceed(cfg, w, d, n)
    ensures CanSucceed(cfg, w, d, n + 1)
    decreases n, 0
  {
    if n > 0 && Fed(cfg, w, d, n - 1) { FedMore(cfg, w, d, n - 1); }
  }

  lemma {:induction false} FedMore(cfg: Config, w: World, d: JobId, n: nat)
    requires Fed(cfg, w, d, n)
    ensures Fed(cfg, w, d, n + 1)
    decreases n, 1
  {
    forall e | e in Deps(cfg.edges, d) && CanSucceed(cfg, w, e, n) ensures CanSucceed(cfg, w, e, n + 1) {
      CanSucceedMore(cfg, w, e, n);
    }
  }

  /** What can succeed after an automatic step could succeed before it. */
  lemma {:induction false} CanSucceedBack(cfg: Config, w: World, s: Step, w': World, d: JobId, n: nat)
    requires AutoStep(cfg, w, s, w') && (forall e :: Blocked(w, e) ==> Blocked(w', e)) && CanSucceed(cfg, w', d, n)
    ensures CanSucceed(cfg, w, d, n + 1)
    decreases n, 0, 0
  {
    if Schedulable(cfg, d) {
    } else if Source(cfg, w', d) {
      SourceBack(cfg, w, s, w', d);
      Deeper(cfg, w, d, 1, n + 1);
    } else if Named(w', d) {
      NamedBack(cfg, w, s, w', d);
      if !Named(w, d) { Deeper(cfg, w, d, 1, n + 1); }
    } else {
      FedBack(cfg, w, s, w', d, n - 1);
    }
  }

  lemma {:induction false} Deeper(cfg: Config, w: World, d: JobId, n: nat, m: nat)
    requires CanSucceed(cfg, w, d, n) && n <= m
    ensures CanSucceed(cfg, w, d, m)
    decreases m
  {
    if n < m {
      Deeper(cfg, w, d, n, m - 1);
      CanSucceedMore(cfg, w, d, m - 1);
    }
  }

  lemma {:induction false} FedBack(cfg: Config, w: World, s: Step, w': World, d: JobId, n: nat)
    requires AutoStep(cfg, w, s, w') && (forall e :: Blocked(w, e) ==> Blocked(w', e)) && Fed(cfg, w', d, n)
    ensures Fed(cfg, w, d, n + 1)
    decreases n, 1
  {
    StartableBack(cfg, w, s, w', d);
    forall e | e in Deps(cfg.edges, d) ensures HasSucceeded(w.runs, e) || CanSucceed(cfg, w, e, n + 1) {
      ServedBack(cfg, w, s, w', e, n);
    }
    var e :| e in Deps(cfg.edges, d) && (Token(w', e) || CanSucceed(cfg, w', e, n));
    HotBack(cfg, w, s, w', e, n);
  }

  lemma {:induction false} ServedBack(cfg: Config, w: World, s: Step, w': World, e: JobId, n: nat)
    requires AutoStep(cfg, w, s, w') && (forall e :: Blocked(w, e) ==> Blocked(w', e))
    requires HasSucceeded(w'.runs, e) || CanSucceed(cfg, w', e, n)
    ensures HasSucceeded(w.runs, e) || CanSucceed(cfg, w, e, n + 1)
    decreases n, 0, 1
  {
    if CanSucceed(cfg, w', e, n) { CanSucceedBack(cfg, w, s, w', e, n); } else { SucceededBack(cfg, w, s, w', e); }
  }

  lemma {:induction false} HotBack(cfg: Config, w: World, s: Step, w': World, e: JobId, n: nat)
    requires AutoStep(cfg, w, s, w') && (forall e :: Blocked(w, e) ==> Blocked(w', e))
    requires Token(w', e) || CanSucceed(cfg, w', e, n)
    ensures Token(w, e) || CanSucceed(cfg, w, e, n + 1)
    decreases n, 0, 1
  {
    if CanSucceed(cfg, w', e, n) { CanSucceedBack(cfg, w, s, w', e, n); } else { TokenBack(cfg, w, s, w', e); }
  }

  lemma PromotableBack(cfg: Config, w: World, s: Step, w': World, j: JobId)
    requires AutoStep(cfg, w, s, w') && (forall e :: Blocked(w, e) ==> Blocked(w', e)) && Promotable(cfg, w', j)
    ensures Promotable(cfg, w, j)
  {
    if Named(w', j) {
      NamedBack(cfg, w, s, w', j);
    } else {
      var n: nat :| Fed(cfg, w', j, n);
      FedBack(cfg, w, s, w', j, n);
    }
  }

  /** A PENDING run that cannot be promoted stays so. */
  lemma StrandedStep(cfg: Config, w: World, s: Step, w': World, r: RunId)
    requires Next(cfg, w, s, w') && Automatic(s) && InFlightKnown(w)
    requires r < |w.runs| && w.runs[r].status == Pending && !Promotable(cfg, w, w.runs[r].job)
    ensures InFlightKnown(w') && r < |w'.runs| && w'.runs[r] == w.runs[r] && !Promotable(cfg, w', w.runs[r].job)
  {
    Summary(cfg, w, s, w');
    forall e | Blocked(w, e) ensures Blocked(w', e) { BlockedStays(cfg, w, s, w', e); }
    StrandedFrom(cfg, w, s, w', r);
  }

  lemma StrandedFrom(cfg: Config, w: World, s: Step, w': World, r: RunId)
    requires AutoStep(cfg, w, s, w') && (forall e :: Blocked(w, e) ==> Blocked(w', e))
    requires r < |w.runs| && w.runs[r].status == Pending && !Promotable(cfg, w, w.runs[r].job)
    ensures r < |w'.runs| && w'.runs[r] == w.runs[r] && !Promotable(cfg, w', w.runs[r].job)
  {
    var j := w.runs[r].job;
    assert RowFrom(cfg, w, s, w', r);
    if s.Advance? && NamesAt(w, s.task, j) && !HasDispatched(w.runs, j) { NotDispatchedNotBlocked(w, j); }
    if s.Advance? && s.task < |w.tasks| { assert TaskKnown(w.runs, w.stream, w.tasks[s.task]); }
    if Promotable(cfg, w', j) { PromotableBack(cfg, w, s, w', j); }
  }

  /** Whatever schedulers and workers do, such a run stays PENDING. */
  lemma {:induction false} StrandedForever(cfg: Config, ws: seq<World>, ss: seq<Step>, n: nat, r: RunId)
    requires Continuation(cfg, ws, ss, false) && n <= |ss| && InFlightKnown(ws[0])
    requires r < |ws[0].runs| && ws[0].runs[r].status == Pending && !Promotable(cfg, ws[0], ws[0].runs[r].job)
    ensures InFlightKnown(ws[n]) && r < |ws[n].runs| && ws[n].runs[r] == ws[0].runs[r]
    ensures !Promotable(cfg, ws[n], ws[n].runs[r].job)
  {
    if n > 0 {
      StrandedForever(cfg, ws, ss, n - 1, r);
      assert StepAt(cfg, ws, ss, n - 1);
      StrandedStep(cfg, ws[n - 1], ss[n - 1], ws[n], r);
    }
  }
}
