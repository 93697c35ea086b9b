/**
 The rounds that bring a PENDING run to its promotion, and the exact condition under which a
 PENDING run can finish without help from a user.
 */
module Rounds {
  import opened Runs
  import opened Store
  import opened Protocol
  import opened Lifecycle
  import opened NoLoss
  import opened Recovery
  import opened Stranded
  import opened Promotion

  // ------------------------------------------------------- measures

  function Sum(tasks: seq<Task>, weight: Task -> nat): nat {
    if tasks == [] then 0 else Sum(tasks[..|tasks| - 1], weight) + weight(tasks[|tasks| - 1])
  }

  lemma {:induction false} SumUpdate(tasks: seq<Task>, t: nat, task: Task, weight: Task -> nat)
    requires t < |tasks|
    ensures Sum(tasks[t := task], weight) + weight(tasks[t]) == Sum(tasks, weight) + weight(task)
  {
    var n := |tasks| - 1;
    if t == n {
      assert tasks[t := task][..n] == tasks[..n];
    } else {
      SumUpdate(tasks[..n], t, task, weight);
      assert tasks[t := task][..n] == tasks[..n][t := task];
    }
  }

  function DispatchedCount(runs: seq<Run>): nat {
    if runs == [] then 0
    else DispatchedCount(runs[..|runs| - 1]) + if Dispatched(runs[|runs| - 1].status) then 1 else 0
  }

  lemma {:induction false} CountFinished(runs: seq<Run>, x: RunId, s: Status)
    requires x < |runs| && !Dispatched(s)
    ensures DispatchedCount(SetStatus(runs, x, s))
         == DispatchedCount(runs) - if Dispatched(runs[x].status) then 1 else 0
  {
    var n := |runs| - 1;
    if x == n {
      assert SetStatus(runs, x, s)[..n] == runs[..n];
    } else {
      CountFinished(runs[..n], x, s);
      assert SetStatus(runs, x, s)[..n] == SetStatus(runs[..n], x, s);
    }
  }

  // ------------------------------------------------------- everything that can succeed does

  ghost predicate NoRetrier(cfg: Config, w: World) {
    forall t: TaskId, d :: !Retrier(cfg, w, t, d)
  }

  function RetryWeight(task: Task): nat {
    match task.pc
    case Checking(result) => if result == Succeeded then 0 else 2
    case Retrying(_) => 1
    case LateRetry => 1
    case _ => 0
  }

  lemma RetryStep(cfg: Config, w: World, t: TaskId, d: JobId) returns (w': World)
    requires InFlightKnown(w) && Retrier(cfg, w, t, d)
    ensures Moves(cfg, w, w') && Sum(w'.tasks, RetryWeight) < Sum(w.tasks, RetryWeight)
  {
    var s := Advance(t, 0.0);
    w' := Apply(cfg, w, s);
    MovesStep(cfg, w, s, w');
    SumUpdate(w.tasks, t, w'.tasks[t], RetryWeight);
  }

  /** All retries that are under way are inserted. */
  lemma RetryAll(cfg: Config, w: World) returns (w': World)
    requires InFlightKnown(w)
    ensures Moves(cfg, w, w') && NoRetrier(cfg, w')
    decreases Sum(w.tasks, RetryWeight)
  {
    if t: TaskId, d :| Retrier(cfg, w, t, d) {
      var w1 := RetryStep(cfg, w, t, d);
      w' := RetryAll(cfg, w1);
      MovesOn(cfg, w, w1, w');
    } else {
      w' := w;
      MovesNowhere(cfg, w);
    }
  }

  /** A RUNNING run that can only fail. */
  ghost predicate Doomed(w: World, x: RunId) {
    x < |w.runs| && w.runs[x].status == Running && Recoverable(w, x) && !Winnable(w, x)
  }

  ghost predicate Tidy(w: World) {
    forall x: RunId :: !Doomed(w, x)
  }

  lemma SettleStep(cfg: Config, w: World, t: TaskId, x: RunId) returns (w': World)
    requires InFlightKnown(w) && NoRetrier(cfg, w) && Live(w, t) && w.tasks[t].run == x < |w.runs|
    requires w.runs[x].status == Running && !Winnable(w, x) && PreFinish(w.tasks[t].pc) && !w.tasks[t].pc.Finishing?
    ensures Moves(cfg, w, w') && w'.runs == w.runs && !Winnable(w', x) && Live(w', t) && w'.tasks[t].run == x
    ensures w'.tasks[t].pc.Finishing?
  {
    assert !Wins(w, t, x) && !Retrier(cfg, w, t, w.runs[x].job) && TaskKnown(w.runs, w.stream, w.tasks[t]);
    var now := if w.tasks[t].pc.Delaying? then w.runs[w.tasks[t].pc.next].createdAt else 0.0;
    var s := Advance(t, now);
    w' := Apply(cfg, w, s);
    MovesStep(cfg, w, s, w');
    Summary(cfg, w, s, w');
    if Winnable(w', x) { WinnableBack(cfg, w, s, w', x); }
  }

  /** Such a run fails. */
  lemma SettleRun(cfg: Config, w: World, x: RunId) returns (w': World, f: Status)
    requires InFlightKnown(w) && NoRetrier(cfg, w) && Doomed(w, x)
    ensures Moves(cfg, w, w') && !Dispatched(f) && w'.runs == SetStatus(w.runs, x, f)
  {
    var t: TaskId :| Carries(w, t, x);
    assert !Returns(w, t, x);
    var w1 := w;
    MovesNowhere(cfg, w);
    if !w.tasks[t].pc.Finishing? { w1 := SettleStep(cfg, w, t, x); }
    f := w1.tasks[t].pc.result;
    w' := SettleFinish(cfg, w1, t, x);
    MovesOn(cfg, w, w1, w');
  }

  lemma SettleFinish(cfg: Config, w: World, t: TaskId, x: RunId) returns (w': World)
    requires InFlightKnown(w) && Live(w, t) && w.tasks[t].run == x < |w.runs| && w.runs[x].status == Running
    requires !Winnable(w, x) && w.tasks[t].pc.Finishing?
    ensures Moves(cfg, w, w') && w'.runs == SetStatus(w.runs, x, w.tasks[t].pc.result)
  {
    var s := Advance(t, 0.0);
    w' := Apply(cfg, w, s);
    MovesStep(cfg, w, s, w');
  }

  /** All runs that can only fail have failed. */
  lemma SettleAll(cfg: Config, w: World) returns (w': World)
    requires InFlightKnown(w) && NoRetrier(cfg, w)
    ensures Moves(cfg, w, w') && NoRetrier(cfg, w') && Tidy(w')
    decreases DispatchedCount(w.runs)
  {
    if x: RunId :| Doomed(w, x) {
      var w1, f := SettleRun(cfg, w, x);
      CountFinished(w.runs, x, f);
      w' := SettleAll(cfg, w1);
      MovesOn(cfg, w, w1, w');
    } else {
      w' := w;
      MovesNowhere(cfg, w);
    }
  }

  ghost predicate SameJobs(w: World, w': World) {
    |w.runs| <= |w'.runs| && forall x :: 0 <= x < |w.runs| ==> w'.runs[x].job == w.runs[x].job
  }

  lemma TidyKept(w: World, w': World)
    requires CalmRunning(w, w') && SameJobs(w, w') && Tidy(w)
    ensures Tidy(w')
  {
    forall x: RunId ensures !Doomed(w', x) {
      if x < |w'.runs| && w'.runs[x].status == Running && Recoverable(w', x) {
        assert !LostAt(w', x, w'.runs[x].job);
        assert Sound(w, x) by {
          if x < |w.runs| && w.runs[x].status == Running {
            assert !LostAt(w, x, w.runs[x].job) && !Doomed(w, x);
          }
        }
        assert Sound(w', x);
      }
    }
  }

  lemma CalmJobs(cfg: Config, w: World, w': World)
    requires Calm(cfg, w, w')
    ensures SameJobs(w, w')
  {
    forall x | 0 <= x < |w.runs| ensures w'.runs[x].job == w.runs[x].job { assert CalmRow(w, w', x); }
  }

  lemma {:induction false} FreshTick(runs: seq<Run>) returns (tick: int)
    ensures forall r :: 0 <= r < |runs| && runs[r].origin.Scheduled? ==> runs[r].origin.tick < tick
  {
    if runs == [] {
      tick := 0;
    } else {
      var row := runs[|runs| - 1];
      tick := FreshTick(runs[..|runs| - 1]);
      if row.origin.Scheduled? && row.origin.tick >= tick { tick := row.origin.tick + 1; }
    }
  }

  lemma TickOnce(cfg: Config, w: World, d: JobId) returns (w': World)
    requires InFlightKnown(w) && Schedulable(cfg, d)
    ensures Moves(cfg, w, w') && Source(cfg, w', d)
  {
    var tick := FreshTick(w.runs);
    var s := ScheduleTick(d, tick, 0.0);
    w' := Apply(cfg, w, s);
    MovesStep(cfg, w, s, w');
    assert WinnableRow(w', |w.runs|, d);
  }

  /** Every scheduled job among `todo` gets a run. */
  lemma TickAll(cfg: Config, w: World, todo: set<JobId>) returns (w': World)
    requires InFlightKnown(w)
    ensures Moves(cfg, w, w')
    ensures forall d :: d in todo && Schedulable(cfg, d) ==> Source(cfg, w', d) || Won(w', d)
    decreases todo
  {
    if d :| d in todo {
      var w1 := TickAll(cfg, w, todo - {d});
      w' := w1;
      MovesNowhere(cfg, w1);
      if Schedulable(cfg, d) { w' := TickOnce(cfg, w1, d); }
      MovesOn(cfg, w, w1, w');
      forall e | e in todo && Schedulable(cfg, e) ensures Source(cfg, w', e) || Won(w', e) {
        if e != d && Won(w1, e) { WonKept(cfg, w1, w', e); }
      }
    } else {
      w' := w;
      MovesNowhere(cfg, w);
    }
  }

  function WinWeight(task: Task): nat {
    if task.pc == Executing || task.pc == Checking(Succeeded) || task.pc == Finishing(Succeeded) then 1 else 0
  }

  lemma FireOne(cfg: Config, w: World, t: TaskId, x: RunId) returns (w': World)
    requires InFlightKnown(w) && Wins(w, t, x)
    ensures Moves(cfg, w, w') && w'.runs == SetStatus(w.runs, x, Succeeded)
    ensures Sum(w'.tasks, WinWeight) < Sum(w.tasks, WinWeight)
  {
    w' := Fire(cfg, w, t, x);
    SumUpdate(w.tasks, t, w'.tasks[t], WinWeight);
  }

  /** No run and no task can bring about a success any more; those that could have done so. */
  lemma WinAll(cfg: Config, w: World) returns (w': World)
    requires InFlightKnown(w) && NoRetrier(cfg, w)
    ensures Moves(cfg, w, w') && forall d :: !Source(cfg, w', d)
    decreases DispatchedCount(w.runs), Sum(w.tasks, WinWeight)
  {
    if x: RunId, d :| WinnableRow(w, x, d) {
      var w1 := RowWin(cfg, w, x, d);
      CountFinished(w.runs, x, Succeeded);
      w' := WinAll(cfg, w1);
      MovesOn(cfg, w, w1, w');
    } else if t: TaskId, d :| Winning(w, t, d) {
      var x := w.tasks[t].run;
      var w1 := FireOne(cfg, w, t, x);
      CountFinished(w.runs, x, Succeeded);
      w' := WinAll(cfg, w1);
      MovesOn(cfg, w, w1, w');
    } else {
      w' := w;
      MovesNowhere(cfg, w);
    }
  }

  // ------------------------------------------------------- working off the fan-out lists

  /** A job whose PENDING run `r` is the only one, and which no other run keeps dispatched. */
  ghost predicate Waits(w: World, r: RunId) {
    && r < |w.runs| && w.runs[r].status == Pending && !HasDispatched(w.runs, w.runs[r].job)
    && OnlyPending(w.runs, r)
  }

  ghost predicate OnlyPending(runs: seq<Run>, r: RunId) {
    r < |runs| && forall x :: 0 <= x < |runs| && runs[x].job == runs[r].job && runs[x].status == Pending ==> x == r
  }

  ghost predicate SpreadRow(w: World, w': World, x: RunId)
    requires x < |w'.runs|
  {
    if x < |w.runs| then
      || w'.runs[x] == w.runs[x]
      || (w.runs[x].status == Pending && Named(w, w.runs[x].job) && w'.runs[x] == w.runs[x].(status := Queued))
    else w'.runs[x].status == Queued
  }

  ghost predicate SpreadRows(w: World, w': World) {
    |w.runs| <= |w'.runs| && forall x :: 0 <= x < |w'.runs| ==> SpreadRow(w, w', x)
  }

  ghost predicate SpreadTasks(cfg: Config, w: World, w': World) {
    && (forall t: TaskId, d :: NamesAt(w, t, d) ==> NamesAt(w', t, d) || HasDispatched(w'.runs, d))
    && (forall t: TaskId, d :: NamesAt(w', t, d) ==> NamesAt(w, t, d))
    && (forall t: TaskId, d :: TokenAt(w, t, d) ==> TokenAt(w', t, d))
    && (forall t: TaskId, d :: Retrier(cfg, w', t, d) ==> Retrier(cfg, w, t, d))
  }

  /** What working off fan-out lists does. */
  ghost predicate Spread(cfg: Config, w: World, w': World) {
    InFlightKnown(w') && SpreadRows(w, w') && SpreadTasks(cfg, w, w') && CalmRunning(w, w')
  }

  lemma DispatchedKept(w: World, w': World, d: JobId)
    requires SpreadRows(w, w') && HasDispatched(w.runs, d)
    ensures HasDispatched(w'.runs, d)
  {
    var x :| 0 <= x < |w.runs| && w.runs[x].job == d && Dispatched(w.runs[x].status);
    assert SpreadRow(w, w', x);
  }

  lemma NamedOld(cfg: Config, w: World, w': World, d: JobId)
    requires SpreadTasks(cfg, w, w') && Named(w', d)
    ensures Named(w, d)
  {
    var t: TaskId :| NamesAt(w', t, d);
    assert NamesAt(w, t, d);
  }

  lemma SpreadOn(cfg: Config, w0: World, w1: World, w2: World)
    requires Spread(cfg, w0, w1) && Spread(cfg, w1, w2)
    ensures Spread(cfg, w0, w2)
  {
    forall x | 0 <= x < |w2.runs| ensures SpreadRow(w0, w2, x) {
      assert SpreadRow(w1, w2, x);
      if x < |w0.runs| {
        assert SpreadRow(w0, w1, x);
        if Named(w1, w1.runs[x].job) { NamedOld(cfg, w0, w1, w1.runs[x].job); }
      } else if x < |w1.runs| {
        assert SpreadRow(w0, w1, x);
      }
    }
    forall t: TaskId, d | NamesAt(w0, t, d) ensures NamesAt(w2, t, d) || HasDispatched(w2.runs, d) {
      if HasDispatched(w1.runs, d) { DispatchedKept(w1, w2, d); }
    }
  }

  function NameWeight(task: Task): nat {
    match task.pc
    case FanOut(todo) => 2 * |todo|
    case Sending(_, todo) => 2 * |todo| + 1
    case LateFanOut(_) => 1
    case _ => 0
  }

  /** The step of a task with a fan-out list. */
  ghost predicate ListStep(w: World, t: TaskId, d: JobId, s: Step) {
    NamesAt(w, t, d) && w.tasks[t].run < |w.runs| && s == Advance(t, 0.0)
  }

  lemma ListRows(cfg: Config, w: World, t: TaskId, d: JobId, s: Step, w': World)
    requires ListStep(w, t, d, s) && AutoStep(cfg, w, s, w')
    ensures SpreadRows(w, w')
  {
    forall x | 0 <= x < |w'.runs| ensures SpreadRow(w, w', x) { assert RowFrom(cfg, w, s, w', x); }
  }

  /** The job at the head of the list is dispatched afterwards; the others stay on it. */
  lemma ListNames(cfg: Config, w: World, t: TaskId, d: JobId, s: Step, w': World)
    requires ListStep(w, t, d, s) && Next(cfg, w, s, w')
    ensures forall e :: NamesAt(w, t, e) ==> NamesAt(w', t, e) || HasDispatched(w'.runs, e)
    ensures |w'.tasks| == |w.tasks| && w'.tasks == Goto(w.tasks, t, w'.tasks[t].pc) && w'.dead == w.dead
    ensures NameWeight(w'.tasks[t]) < NameWeight(w.tasks[t])
  {
    match w.tasks[t].pc
    case FanOut(todo) => DependencyRunExact(w.runs, todo[0], 0.0);
    case LateFanOut(j) => DependencyRunExact(w.runs, j, 0.0);
    case _ =>
  }

  lemma ListTasks(cfg: Config, w: World, t: TaskId, d: JobId, s: Step, w': World)
    requires ListStep(w, t, d, s) && Next(cfg, w, s, w') && AutoStep(cfg, w, s, w')
    ensures SpreadTasks(cfg, w, w')
  {
    ListNames(cfg, w, t, d, s, w');
    ListOthers(cfg, w, t, d, s, w');
  }

  lemma ListOthers(cfg: Config, w: World, t: TaskId, d: JobId, s: Step, w': World)
    requires ListStep(w, t, d, s) && AutoStep(cfg, w, s, w')
    requires |w'.tasks| == |w.tasks| && w'.tasks == Goto(w.tasks, t, w'.tasks[t].pc)
    requires forall e :: NamesAt(w, t, e) ==> NamesAt(w', t, e) || HasDispatched(w'.runs, e)
    ensures SpreadTasks(cfg, w, w')
  {
    forall u: TaskId, e | NamesAt(w', u, e) ensures NamesAt(w, u, e) { assert TaskFrom(cfg, w, s, w', u); }
    forall u: TaskId, e | TokenAt(w, u, e) ensures TokenAt(w', u, e) { assert u != t; }
    forall u: TaskId, e | Retrier(cfg, w', u, e) ensures Retrier(cfg, w, u, e)
    { ListRetrier(cfg, w, t, d, s, w', u, e); }
  }

  lemma ListRetrier(cfg: Config, w: World, t: TaskId, d: JobId, s: Step, w': World, u: TaskId, e: JobId)
    requires ListStep(w, t, d, s) && AutoStep(cfg, w, s, w') && Retrier(cfg, w', u, e)
    ensures Retrier(cfg, w, u, e)
  {
    assert TaskFrom(cfg, w, s, w', u);
    WorksBack(cfg, w, s, w', u, e);
  }

  /** The waiting run is promoted if the list names its job. */
  lemma ListWaits(cfg: Config, w: World, t: TaskId, d: JobId, s: Step, w': World, r: RunId)
    requires ListStep(w, t, d, s) && Next(cfg, w, s, w') && Waits(w, r)
    ensures r < |w'.runs| && (Waits(w', r) || w'.runs[r] == w.runs[r].(status := Queued))
  {
    match w.tasks[t].pc
    case FanOut(todo) => FanOutWaits(w.runs, todo[0], r);
    case LateFanOut(j) => FanOutWaits(w.runs, j, r);
    case _ =>
  }

  lemma FanOutWaits(runs: seq<Run>, k: JobId, r: RunId)
    requires OnlyPending(runs, r) && runs[r].status == Pending && !HasDispatched(runs, runs[r].job)
    ensures var runs' := CreateDependencyRun(runs, k, 0.0).0;
            && r < |runs'|
            && (|| runs'[r] == runs[r].(status := Queued)
                || (runs'[r] == runs[r] && !HasDispatched(runs', runs[r].job) && OnlyPending(runs', r)))
  {
    DependencyRunExact(runs, k, 0.0);
    var (runs', id) := CreateDependencyRun(runs, k, 0.0);
    if k == runs[r].job {
      assert PendingRun(runs, k).Some?;
    } else if id.Some? {
      assert forall x :: 0 <= x < |runs'| && runs'[x].job == runs[r].job ==> x < |runs| && runs'[x] == runs[x];
    }
  }

  lemma ListOnce(cfg: Config, w: World, t: TaskId, d: JobId, r: RunId) returns (w': World)
    requires InFlightKnown(w) && NamesAt(w, t, d) && Waits(w, r)
    ensures Leads(cfg, w, w') && Spread(cfg, w, w') && Sum(w'.tasks, NameWeight) < Sum(w.tasks, NameWeight)
    ensures r < |w'.runs| && (Waits(w', r) || w'.runs[r] == w.runs[r].(status := Queued))
  {
    assert TaskKnown(w.runs, w.stream, w.tasks[t]);
    var s := Advance(t, 0.0);
    w' := Apply(cfg, w, s);
    LeadsStep(cfg, w, s, w');
    Summary(cfg, w, s, w');
    ListRows(cfg, w, t, d, s, w');
    ListTasks(cfg, w, t, d, s, w');
    HarmlessRunning(cfg, w, s, w');
    ListWaits(cfg, w, t, d, s, w', r);
    ListNames(cfg, w, t, d, s, w');
    SumUpdate(w.tasks, t, w'.tasks[t], NameWeight);
  }

  /** All fan-out lists are worked off, or the waiting run is promoted on the way. */
  lemma Drain(cfg: Config, w: World, r: RunId) returns (w': World)
    requires InFlightKnown(w) && Waits(w, r)
    ensures Leads(cfg, w, w') && Spread(cfg, w, w') && r < |w'.runs|
    ensures w'.runs[r] == w.runs[r].(status := Queued) || (Waits(w', r) && forall t: TaskId, d :: !NamesAt(w', t, d))
    decreases Sum(w.tasks, NameWeight)
  {
    if t: TaskId, d :| NamesAt(w, t, d) {
      w' := ListOnce(cfg, w, t, d, r);
      if Waits(w', r) {
        var w1 := w';
        w' := Drain(cfg, w1, r);
        LeadsOn(cfg, w, w1, w');
        SpreadOn(cfg, w, w1, w');
        assert SpreadRow(w, w1, r);
      }
    } else {
      w' := w;
      LeadsNowhere(cfg, w);
    }
  }

  /** Nothing can bring about a success without a fan-out; every RUNNING run is lost. */
  ghost predicate Still(cfg: Config, w: World) {
    InFlightKnown(w) && Tidy(w) && forall d :: !Source(cfg, w, d)
  }

  ghost predicate NoNames(w: World) {
    forall t: TaskId, d :: !NamesAt(w, t, d)
  }

  lemma StillDispatched(cfg: Config, w: World, d: JobId)
    requires Still(cfg, w) && HasDispatched(w.runs, d)
    ensures Blocked(w, d)
  {
    var x :| 0 <= x < |w.runs| && w.runs[x].job == d && Dispatched(w.runs[x].status);
    assert !Source(cfg, w, d) && !WinnableRow(w, x, d) && !Doomed(w, x);
    assert LostAt(w, x, d);
  }

  /** What working off the lists and winning what they started amounts to. */
  ghost predicate Wave(w: World, w': World) {
    && (forall d :: HasSucceeded(w.runs, d) ==> HasSucceeded(w'.runs, d))
    && (forall d :: Blocked(w', d) ==> Blocked(w, d))
    && (forall d :: Token(w, d) ==> Token(w', d))
    && (forall d :: Named(w, d) && !Blocked(w, d) ==> Won(w', d))
    && (forall d :: HasPending(w.runs, d) ==> HasPending(w'.runs, d) || Named(w, d))
  }

  lemma WaveWins(cfg: Config, w: World, w1: World, w2: World, d: JobId)
    requires Still(cfg, w) && Spread(cfg, w, w1) && NoNames(w1)
    requires Calm(cfg, w1, w2) && (forall e :: !Source(cfg, w2, e))
    requires Named(w, d) && !Blocked(w, d)
    ensures Won(w2, d)
  {
    NamedDispatched(cfg, w, w1, d);
    var x :| 0 <= x < |w1.runs| && w1.runs[x].job == d && Dispatched(w1.runs[x].status);
    assert SpreadRow(w, w1, x);
    if w1.runs[x].status == Running {
      StillDispatched(cfg, w, d);
    } else {
      assert WinnableRow(w1, x, d);
    }
  }

  lemma WavePending(w: World, w1: World, w2: World, d: JobId)
    requires SpreadRows(w, w1) && CalmRows(w1, w2) && HasPending(w.runs, d) && !Named(w, d)
    ensures HasPending(w2.runs, d)
  {
    var x :| 0 <= x < |w.runs| && w.runs[x].job == d && w.runs[x].status == Pending;
    assert SpreadRow(w, w1, x) && CalmRow(w1, w2, x);
  }

  lemma SpreadSucceeded(w: World, w': World, d: JobId)
    requires SpreadRows(w, w') && HasSucceeded(w.runs, d)
    ensures HasSucceeded(w'.runs, d)
  {
    var x :| 0 <= x < |w.runs| && w.runs[x].job == d && w.runs[x].status == Succeeded;
    assert SpreadRow(w, w', x);
  }

  lemma UnblockedKept(w: World, w': World, d: JobId)
    requires CalmRunning(w, w') && Blocked(w', d)
    ensures Blocked(w, d)
  {
    var x: RunId :| LostAt(w', x, d);
    assert LostAt(w, x, d);
  }

  lemma IsWave(cfg: Config, w: World, w1: World, w2: World)
    requires Still(cfg, w) && Spread(cfg, w, w1) && NoNames(w1)
    requires Calm(cfg, w1, w2) && (forall e :: !Source(cfg, w2, e))
    ensures Wave(w, w2)
  {
    forall d | HasSucceeded(w.runs, d) ensures HasSucceeded(w2.runs, d) {
      SpreadSucceeded(w, w1, d);
      SucceededKept(w1, w2, d);
    }
    forall d | Blocked(w2, d) ensures Blocked(w, d) {
      UnblockedKept(w1, w2, d);
      UnblockedKept(w, w1, d);
    }
    forall d | Token(w, d) ensures Token(w2, d) {
      var t: TaskId :| TokenAt(w, t, d);
      assert TokenAt(w1, t, d) && TokenAt(w2, t, d);
    }
    forall d | Named(w, d) && !Blocked(w, d) ensures Won(w2, d) { WaveWins(cfg, w, w1, w2, d); }
    forall d | HasPending(w.runs, d) && !Named(w, d) ensures HasPending(w2.runs, d) { WavePending(w, w1, w2, d); }
  }

  lemma StillAgain(cfg: Config, w: World, w1: World, w2: World)
    requires Still(cfg, w) && Spread(cfg, w, w1) && NoNames(w1)
    requires Calm(cfg, w1, w2) && (forall e :: !Source(cfg, w2, e))
    ensures Still(cfg, w2) && NoNames(w2)
  {
    assert SameJobs(w, w1) by {
      forall x | 0 <= x < |w.runs| ensures w1.runs[x].job == w.runs[x].job { assert SpreadRow(w, w1, x); }
    }
    TidyKept(w, w1);
    CalmJobs(cfg, w1, w2);
    TidyKept(w1, w2);
  }

  lemma OnlyPendingKept(w: World, w': World, r: RunId)
    requires CalmRows(w, w') && OnlyPending(w.runs, r) && w.runs[r].status == Pending
    ensures OnlyPending(w'.runs, r) && w'.runs[r].status == Pending && w'.runs[r].job == w.runs[r].job
  {
    assert CalmRow(w, w', r);
    forall x | 0 <= x < |w'.runs| && w'.runs[x].job == w'.runs[r].job && w'.runs[x].status == Pending ensures x == r {
      assert CalmRow(w, w', x);
    }
  }

  lemma NamedDispatched(cfg: Config, w: World, w': World, d: JobId)
    requires Spread(cfg, w, w') && NoNames(w') && Named(w, d)
    ensures HasDispatched(w'.runs, d)
  {
    var t: TaskId :| NamesAt(w, t, d);
    assert !NamesAt(w', t, d);
  }

  /** One wave, unless it promotes the waiting run. */
  lemma MakeWave(cfg: Config, w: World, r: RunId) returns (w': World, promoted: bool)
    requires Still(cfg, w) && Waits(w, r)
    ensures Leads(cfg, w, w') && r < |w'.runs| && w'.runs[r].job == w.runs[r].job
    ensures promoted ==> w'.runs[r].status == Queued
    ensures Named(w, w.runs[r].job) ==> promoted
    ensures !promoted ==>
              Still(cfg, w') && NoNames(w') && Wave(w, w') && OnlyPending(w'.runs, r) && w'.runs[r].status == Pending
  {
    var w1 := Drain(cfg, w, r);
    promoted := w1.runs[r].status == Queued;
    if promoted {
      w' := w1;
    } else {
      assert NoRetrier(cfg, w1) by {
        forall t: TaskId, d ensures !Retrier(cfg, w1, t, d) { assert !Source(cfg, w, d) && !Retrier(cfg, w, t, d); }
      }
      w' := WinAll(cfg, w1);
      LeadsOn(cfg, w, w1, w');
      IsWave(cfg, w, w1, w');
      StillAgain(cfg, w, w1, w');
      OnlyPendingKept(w1, w', r);
      assert SpreadRow(w, w1, r);
      if Named(w, w.runs[r].job) { NamedDispatched(cfg, w, w1, w.runs[r].job); }
    }
  }

  // ------------------------------------------------------- reading the dependents

  /** All dependencies of `d` have succeeded, and one of them is about to fan out. */
  ghost predicate Due(cfg: Config, w: World, d: JobId) {
    && Startable(cfg, w, d)
    && (forall e :: e in Deps(cfg.edges, d) ==> HasSucceeded(w.runs, e))
    && (exists e :: e in Deps(cfg.edges, d) && Token(w, e))
  }

  ghost predicate ReadTokens(cfg: Config, w: World, w': World) {
    && (forall t: TaskId, d :: TokenAt(w', t, d) ==> TokenAt(w, t, d))
    && (forall t: TaskId, e :: TokenAt(w, t, e) ==>
          TokenAt(w', t, e) || NamesAll(w', t, DependentsReady(cfg, w.runs, e)))
  }

  ghost predicate NamesAll(w: World, t: TaskId, todo: seq<JobId>) {
    forall d :: d in todo ==> NamesAt(w, t, d)
  }

  /** What reading does: lists appear for exactly the jobs that are due. */
  ghost predicate ReadOut(cfg: Config, w: World, w': World) {
    && Still(cfg, w') && w'.runs == w.runs && CalmRunning(w, w') && ReadTokens(cfg, w, w')
    && (forall t: TaskId, d :: NamesAt(w, t, d) ==> NamesAt(w', t, d))
    && (forall d :: Named(w', d) ==> Named(w, d) || Due(cfg, w, d))
  }

  lemma DueOld(cfg: Config, w: World, w': World, d: JobId)
    requires w'.runs == w.runs && ReadTokens(cfg, w, w') && Due(cfg, w', d)
    ensures Due(cfg, w, d)
  {
    var e :| e in Deps(cfg.edges, d) && Token(w', e);
    var t: TaskId :| TokenAt(w', t, e);
    assert TokenAt(w, t, e);
  }

  lemma ReadOutOn(cfg: Config, w0: World, w1: World, w2: World)
    requires ReadOut(cfg, w0, w1) && ReadOut(cfg, w1, w2)
    ensures ReadOut(cfg, w0, w2)
  {
    forall t: TaskId, e | TokenAt(w0, t, e)
      ensures TokenAt(w2, t, e) || NamesAll(w2, t, DependentsReady(cfg, w0.runs, e))
    {
      assert TokenAt(w1, t, e) || NamesAll(w1, t, DependentsReady(cfg, w0.runs, e));
    }
    forall d | Named(w2, d) ensures Named(w0, d) || Due(cfg, w0, d) {
      if !Named(w1, d) { DueOld(cfg, w0, w1, d); }
    }
  }

  function TokenWeight(task: Task): nat {
    if task.pc == Finishing(Succeeded) then 2 else if task.pc == Reading then 1 else 0
  }

  /** The step of a task that is about to fan out. */
  lemma ReadMoves(cfg: Config, w: World, t: TaskId, e: JobId, w': World)
    requires Still(cfg, w) && TokenAt(w, t, e) && Next(cfg, w, Advance(t, 0.0), w')
    ensures w'.runs == w.runs && w'.dead == w.dead
    ensures w'.tasks == Goto(w.tasks, t,
                             if w.tasks[t].pc == Reading then FanOut(DependentsReady(cfg, w.runs, e)) else Reading)
  {
    assert !Source(cfg, w, e) && !Winning(w, t, e);
  }

  /** Reading starts nothing. */
  lemma SourceSame(cfg: Config, w: World, s: Step, w': World, d: JobId)
    requires AutoStep(cfg, w, s, w') && w'.runs == w.runs && Source(cfg, w', d)
    ensures Source(cfg, w, d)
  {
    if x: RunId :| WinnableRow(w', x, d) {
      if w.runs[x].status == Running { WinnableBack(cfg, w, s, w', x); }
      assert WinnableRow(w, x, d);
    } else if t: TaskId :| Winning(w', t, d) {
      var x := w'.tasks[t].run;
      WinsBack(cfg, w, s, w', t, x);
      WorksBack(cfg, w, s, w', t, d);
      assert WinnableRow(w, x, d) || Winning(w, t, d);
    } else {
      var t: TaskId :| Retrier(cfg, w', t, d);
      RetrierBack(cfg, w, s, w', t, d);
    }
  }

  lemma StillStep(cfg: Config, w: World, s: Step, w': World)
    requires Still(cfg, w) && AutoStep(cfg, w, s, w') && w'.runs == w.runs && CalmRunning(w, w')
    ensures Still(cfg, w')
  {
    TidyKept(w, w');
    forall d ensures !Source(cfg, w', d) {
      if Source(cfg, w', d) { SourceSame(cfg, w, s, w', d); }
    }
  }

  lemma ReadyIsDue(cfg: Config, w: World, t: TaskId, e: JobId, d: JobId)
    requires TokenAt(w, t, e) && d in DependentsReady(cfg, w.runs, e)
    ensures Due(cfg, w, d)
  {
    assert Edge(d, e) in cfg.edges && e in Deps(cfg.edges, d) && Token(w, e);
  }

  /** The world after that step, as far as lists and tokens go. */
  ghost predicate ReadBy(cfg: Config, w: World, t: TaskId, e: JobId, w': World) {
    && TokenAt(w, t, e) && w'.runs == w.runs && w'.dead == w.dead
    && w'.tasks == Goto(w.tasks, t,
                        if w.tasks[t].pc == Reading then FanOut(DependentsReady(cfg, w.runs, e)) else Reading)
  }

  lemma ReadsTokens(cfg: Config, w: World, t: TaskId, e: JobId, w': World)
    requires ReadBy(cfg, w, t, e, w')
    ensures ReadTokens(cfg, w, w')
    ensures Sum(w'.tasks, TokenWeight) < Sum(w.tasks, TokenWeight)
  {
    SumUpdate(w.tasks, t, w'.tasks[t], TokenWeight);
  }

  lemma ReadsNames(cfg: Config, w: World, t: TaskId, e: JobId, w': World)
    requires ReadBy(cfg, w, t, e, w')
    ensures forall u: TaskId, d :: NamesAt(w, u, d) ==> NamesAt(w', u, d)
    ensures forall d :: Named(w', d) ==> Named(w, d) || Due(cfg, w, d)
  {
    forall d | Named(w', d) ensures Named(w, d) || Due(cfg, w, d) {
      var u: TaskId :| NamesAt(w', u, d);
      if u == t { ReadyIsDue(cfg, w, t, e, d); } else { assert NamesAt(w, u, d); }
    }
  }

  lemma ReadOnce(cfg: Config, w: World, t: TaskId, e: JobId) returns (w': World)
    requires Still(cfg, w) && TokenAt(w, t, e)
    ensures Leads(cfg, w, w') && ReadOut(cfg, w, w') && Sum(w'.tasks, TokenWeight) < Sum(w.tasks, TokenWeight)
  {
    var s := Advance(t, 0.0);
    w' := Apply(cfg, w, s);
    LeadsStep(cfg, w, s, w');
    Summary(cfg, w, s, w');
    HarmlessRunning(cfg, w, s, w');
    ReadMoves(cfg, w, t, e, w');
    StillStep(cfg, w, s, w');
    ReadsTokens(cfg, w, t, e, w');
    ReadsNames(cfg, w, t, e, w');
  }

  /** Every task that is about to fan out reads its dependents. */
  lemma ReadAll(cfg: Config, w: World) returns (w': World)
    requires Still(cfg, w)
    ensures Leads(cfg, w, w') && ReadOut(cfg, w, w') && forall t: TaskId, e :: !TokenAt(w', t, e)
    decreases Sum(w.tasks, TokenWeight)
  {
    if t: TaskId, e :| TokenAt(w, t, e) {
      var w1 := ReadOnce(cfg, w, t, e);
      w' := ReadAll(cfg, w1);
      LeadsOn(cfg, w, w1, w');
      ReadOutOn(cfg, w, w1, w');
    } else {
      w' := w;
      LeadsNowhere(cfg, w);
    }
  }

  // ------------------------------------------------------- one round

  /** What a round amounts to: every job that is due runs and is held before it fans out. */
  ghost predicate RoundOk(cfg: Config, w: World, w': World) {
    && (forall d :: HasSucceeded(w.runs, d) ==> HasSucceeded(w'.runs, d))
    && (forall d :: Blocked(w', d) ==> Blocked(w, d))
    && (forall d :: Due(cfg, w, d) && !Blocked(w, d) ==> Won(w', d))
    && (forall d :: HasPending(w.runs, d) ==> HasPending(w'.runs, d) || Due(cfg, w, d))
  }

  lemma {:induction false} DueIsReady(cfg: Config, w: World, d: JobId, e: JobId)
    requires Still(cfg, w) && Due(cfg, w, d) && !Blocked(w, d) && e in Deps(cfg.edges, d)
    ensures d in DependentsReady(cfg, w.runs, e)
  {
    if HasDispatched(w.runs, d) { StillDispatched(cfg, w, d); }
    assert Ready(cfg, w.runs, d) && Edge(d, e) in cfg.edges;
  }

  lemma DueIsNamed(cfg: Config, w: World, w': World, d: JobId)
    requires Still(cfg, w) && ReadOut(cfg, w, w') && (forall t: TaskId, e :: !TokenAt(w', t, e))
    requires Due(cfg, w, d) && !Blocked(w, d)
    ensures Named(w', d)
  {
    var e :| e in Deps(cfg.edges, d) && Token(w, e);
    var t: TaskId :| TokenAt(w, t, e);
    DueIsReady(cfg, w, d, e);
    assert !TokenAt(w', t, e);
    assert NamesAt(w', t, d);
  }

  /** Everything is ready for a round, and run `r` is waiting. */
  ghost predicate Poised(cfg: Config, w: World, r: RunId) {
    Still(cfg, w) && NoNames(w) && OnlyPending(w.runs, r) && w.runs[r].status == Pending
  }

  lemma MakeRound(cfg: Config, w: World, r: RunId) returns (w': World, promoted: bool)
    requires Poised(cfg, w, r) && !Blocked(w, w.runs[r].job)
    ensures Leads(cfg, w, w') && r < |w'.runs| && w'.runs[r].job == w.runs[r].job
    ensures promoted ==> w'.runs[r].status == Queued
    ensures Due(cfg, w, w.runs[r].job) ==> promoted
    ensures !promoted ==> Poised(cfg, w', r) && RoundOk(cfg, w, w')
  {
    var w1 := ReadAll(cfg, w);
    if HasDispatched(w.runs, w.runs[r].job) { StillDispatched(cfg, w, w.runs[r].job); }
    w', promoted := MakeWave(cfg, w1, r);
    LeadsOn(cfg, w, w1, w');
    if Due(cfg, w, w.runs[r].job) { DueIsNamed(cfg, w, w1, w.runs[r].job); }
    if !promoted { IsRound(cfg, w, w1, w'); }
  }

  lemma IsRound(cfg: Config, w: World, w1: World, w': World)
    requires Still(cfg, w) && NoNames(w) && ReadOut(cfg, w, w1) && Wave(w1, w')
    requires forall t: TaskId, e :: !TokenAt(w1, t, e)
    ensures RoundOk(cfg, w, w')
  {
    forall d | Blocked(w', d) ensures Blocked(w, d) { UnblockedKept(w, w1, d); }
    forall d | Due(cfg, w, d) && !Blocked(w, d) ensures Won(w', d) {
      DueIsNamed(cfg, w, w1, d);
      if Blocked(w1, d) { UnblockedKept(w, w1, d); }
    }
    forall d | HasPending(w.runs, d) && !HasPending(w'.runs, d) ensures Due(cfg, w, d) {
      assert Named(w1, d) && !Named(w, d);
    }
  }

  // ------------------------------------------------------- as many rounds as levels

  /** In a poised world: a fan-out reaches `d` after at most `n` more rounds. */
  ghost predicate Chain(cfg: Config, w: World, d: JobId, n: nat)
    decreases n
  {
    && !Blocked(w, d) && Startable(cfg, w, d)
    && (forall e :: e in Deps(cfg.edges, d) ==> HasSucceeded(w.runs, e) || (n > 0 && Chain(cfg, w, e, n - 1)))
    && (exists e :: e in Deps(cfg.edges, d) && (Token(w, e) || (n > 0 && Chain(cfg, w, e, n - 1))))
  }

  /** A round uses up one level. */
  lemma {:induction false} ChainShortens(cfg: Config, w: World, w': World, d: JobId, n: nat)
    requires RoundOk(cfg, w, w') && Chain(cfg, w, d, n) && !Due(cfg, w, d)
    ensures n > 0 && Chain(cfg, w', d, n - 1)
    decreases n
  {
    var deps := Deps(cfg.edges, d);
    if forall e :: e in deps ==> HasSucceeded(w.runs, e) {
      // Then some dependency is not about to fan out, but will be.
      var e :| e in deps && (Token(w, e) || (n > 0 && Chain(cfg, w, e, n - 1)));
      DependencyNearer(cfg, w, w', e, n);
    } else {
      var e :| e in deps && !HasSucceeded(w.runs, e);
      DependencyNearer(cfg, w, w', e, n);
    }
    forall e | e in deps ensures HasSucceeded(w'.runs, e) || (n - 1 > 0 && Chain(cfg, w', e, n - 2)) {
      if !HasSucceeded(w.runs, e) { DependencyNearer(cfg, w, w', e, n); }
    }
  }

  lemma {:induction false} DependencyNearer(cfg: Config, w: World, w': World, e: JobId, n: nat)
    requires RoundOk(cfg, w, w') && n > 0 && Chain(cfg, w, e, n - 1)
    ensures Won(w', e) || (n - 1 > 0 && Chain(cfg, w', e, n - 2))
    decreases n, 0
  {
    if !Due(cfg, w, e) { ChainShortens(cfg, w, w', e, n - 1); }
  }

  lemma {:induction false} RoundsPromote(cfg: Config, w: World, r: RunId, n: nat) returns (w': World)
    requires Poised(cfg, w, r) && Chain(cfg, w, w.runs[r].job, n)
    ensures Leads(cfg, w, w') && r < |w'.runs| && w'.runs[r].job == w.runs[r].job && w'.runs[r].status == Queued
    decreases n
  {
    var w1, promoted := MakeRound(cfg, w, r);
    w' := w1;
    if !promoted {
      ChainShortens(cfg, w, w1, w.runs[r].job, n);
      w' := RoundsPromote(cfg, w1, r, n - 1);
      LeadsOn(cfg, w, w1, w');
    }
  }

  // ------------------------------------------------------- from any world

  /** Everything that can succeed by itself does. */
  lemma Opening(cfg: Config, w: World) returns (w': World)
    requires InFlightKnown(w)
    ensures Moves(cfg, w, w') && Still(cfg, w')
    ensures forall d :: Schedulable(cfg, d) || Source(cfg, w, d) ==> Won(w', d)
  {
    var w1 := RetryAll(cfg, w);
    var w2 := SettleAll(cfg, w1);
    var w3 := TickAll(cfg, w2, cfg.jobs.Keys);
    w' := WinAll(cfg, w3);
    MovesOn(cfg, w, w1, w2);
    MovesOn(cfg, w, w2, w3);
    MovesOn(cfg, w, w3, w');
    MovesOn(cfg, w2, w3, w');
    CalmJobs(cfg, w2, w');
    TidyKept(w2, w');
    forall d | Schedulable(cfg, d) || Source(cfg, w, d) ensures Won(w', d) {
      if Schedulable(cfg, d) && Won(w3, d) { WonKept(cfg, w3, w', d); }
    }
  }

  /** What the opening and one wave amount to. */
  ghost predicate Opened(cfg: Config, w: World, w': World) {
    && (forall d :: HasSucceeded(w.runs, d) ==> HasSucceeded(w'.runs, d))
    && (forall d :: Blocked(w', d) ==> Blocked(w, d))
    && (forall d :: Token(w, d) ==> Token(w', d))
    && (forall d :: Schedulable(cfg, d) || Source(cfg, w, d) ==> Won(w', d))
    && (forall d :: Named(w, d) && !Blocked(w, d) ==> Won(w', d))
    && (forall d :: HasPending(w.runs, d) && !Blocked(w, d) ==> HasPending(w'.runs, d) || Won(w', d))
  }

  lemma CalmNamed(cfg: Config, w: World, w': World, d: JobId)
    requires Calm(cfg, w, w')
    ensures Named(w, d) <==> Named(w', d)
    ensures Token(w, d) ==> Token(w', d)
    ensures HasPending(w.runs, d) ==> HasPending(w'.runs, d)
  {
    if t: TaskId :| NamesAt(w, t, d) { assert NamesAt(w', t, d); }
    if t: TaskId :| NamesAt(w', t, d) { assert NamesAt(w, t, d); }
    if t: TaskId :| TokenAt(w, t, d) { assert TokenAt(w', t, d); }
    if HasPending(w.runs, d) {
      var x :| 0 <= x < |w.runs| && w.runs[x].job == d && w.runs[x].status == Pending;
      assert CalmRow(w, w', x);
    }
  }

  lemma IsOpened(cfg: Config, w: World, w1: World, w': World)
    requires Calm(cfg, w, w1) && Wave(w1, w')
    requires forall d :: Schedulable(cfg, d) || Source(cfg, w, d) ==> Won(w1, d)
    ensures Opened(cfg, w, w')
  {
    forall d | HasSucceeded(w.runs, d) ensures HasSucceeded(w'.runs, d) { SucceededKept(w, w1, d); }
    forall d | Blocked(w', d) ensures Blocked(w, d) { UnblockedKept(w, w1, d); }
    forall d ensures Token(w, d) ==> Token(w', d) { CalmNamed(cfg, w, w1, d); }
    forall d | !Blocked(w, d)
      ensures Named(w, d) ==> Won(w', d)
      ensures HasPending(w.runs, d) ==> HasPending(w'.runs, d) || Won(w', d)
    {
      CalmNamed(cfg, w, w1, d);
      if Blocked(w1, d) { UnblockedKept(w, w1, d); }
    }
  }

  /** What could succeed has, or is reached by a chain of fan-outs. */
  lemma {:induction false} ChainFrom(cfg: Config, w: World, w': World, d: JobId, n: nat)
    requires Opened(cfg, w, w') && CanSucceed(cfg, w, d, n)
    ensures Won(w', d) || Chain(cfg, w', d, n)
    decreases n, 0
  {
    if !Schedulable(cfg, d) && !Source(cfg, w, d) && !Named(w, d) && !Won(w', d) { FedChain(cfg, w, w', d, n - 1); }
  }

  lemma {:induction false} FedChain(cfg: Config, w: World, w': World, d: JobId, n: nat)
    requires Opened(cfg, w, w') && Fed(cfg, w, d, n) && !Blocked(w, d)
    requires HasPending(w.runs, d) ==> HasPending(w'.runs, d)
    ensures Chain(cfg, w', d, n + 1)
    decreases n, 1
  {
    forall e | e in Deps(cfg.edges, d) ensures HasSucceeded(w'.runs, e) || Chain(cfg, w', e, n) {
      if !HasSucceeded(w.runs, e) { ChainFrom(cfg, w, w', e, n); }
    }
    var e :| e in Deps(cfg.edges, d) && (Token(w, e) || CanSucceed(cfg, w, e, n));
    if !Token(w, e) { ChainFrom(cfg, w, w', e, n); }
  }

  /** A PENDING run that can be promoted is promoted by some continuation. */
  lemma PromotionReachable(cfg: Config, w: World, r: RunId) returns (w': World)
    requires InFlightKnown(w) && OnlyPending(w.runs, r)
    requires w.runs[r].status == Pending && Promotable(cfg, w, w.runs[r].job)
    ensures Leads(cfg, w, w') && r < |w'.runs| && w'.runs[r].job == w.runs[r].job && w'.runs[r].status == Queued
  {
    var j := w.runs[r].job;
    var w1 := Opening(cfg, w);
    OnlyPendingKept(w, w1, r);
    if Blocked(w1, j) { UnblockedKept(w, w1, j); }
    if HasDispatched(w1.runs, j) { StillDispatched(cfg, w1, j); }
    CalmNamed(cfg, w, w1, j);
    var w2, promoted := MakeWave(cfg, w1, r);
    LeadsOn(cfg, w, w1, w2);
    w' := w2;
    if !promoted {
      var n: nat :| Fed(cfg, w, j, n);
      IsOpened(cfg, w, w1, w2);
      assert HasPending(w2.runs, j);
      FedChain(cfg, w, w2, j, n);
      w' := RoundsPromote(cfg, w2, r, n + 1);
      LeadsOn(cfg, w, w2, w');
    }
  }

  // ------------------------------------------------------- the condition is exact

  /**
   A PENDING run that is the only one of its job can reach a terminal status without a user if
   and only if a fan-out can still reach its job.
   */
  lemma PendingFinishesIff(cfg: Config, w: World, r: RunId)
    requires InFlightKnown(w) && OnlyPending(w.runs, r) && w.runs[r].status == Pending
    ensures CanFinish(cfg, w, r, false) <==> Promotable(cfg, w, w.runs[r].job)
  {
    if Promotable(cfg, w, w.runs[r].job) {
      var w' := PromotionReachable(cfg, w, r);
      QueuedFinishes(cfg, w', r, false);
      LeadsToFinish(cfg, w, w', r);
    } else if CanFinish(cfg, w, r, false) {
      var ws, ss :| Finishes(cfg, w, r, false, ws, ss);
      StrandedForever(cfg, ws, ss, |ss|, r);
      assert false;
    }
  }
}
