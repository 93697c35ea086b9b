/** A cancel that commits before the worker's cancel check leaves no trace of that execution. */
module Cancellation {
  import opened Runs
  import opened Store
  import opened Protocol
  import opened Lifecycle

  /** The cancel check has not happened yet. */
  predicate BeforeCheck(pc: Pc) {
    pc.Start? || pc.Executing? || pc.Checking?
  }

  predicate Winding(pc: Pc) {
    BeforeCheck(pc) || pc.Acking? || pc.Deleting? || pc.Done?
  }

  /** The step is one of task `t`'s, including its interruption by the cancel listener. */
  ghost predicate StepOf(s: Step, t: TaskId) {
    (s.Advance? || s.Execute? || s.Abort?) && s.task == t
  }

  ghost predicate Quiet(w: World, t: TaskId) {
    t < |w.tasks| && IsRunCanceled(w.runs, w.tasks[t].run) && Winding(w.tasks[t].pc)
  }

  /** No row, no stream entry, no delayed member, no thread left behind. */
  ghost predicate NoSideEffect(w: World, w': World) {
    && w'.runs == w.runs && w'.delayed == w.delayed && w'.outbox == w.outbox
    && |w'.stream| == |w.stream| && |w'.tasks| == |w.tasks|
  }

  lemma AdvanceQuietly(cfg: Config, w: World, t: TaskId, now: real)
    requires Quiet(w, t) && w.tasks[t].pc != Executing && w.tasks[t].pc != Done
    ensures NoSideEffect(w, AdvanceTask(cfg, w, t, now)) && Winding(AdvanceTask(cfg, w, t, now).tasks[t].pc)
  {}

  lemma OwnStepQuiet(cfg: Config, w: World, s: Step, w': World, t: TaskId)
    requires Next(cfg, w, s, w') && Quiet(w, t) && StepOf(s, t)
    ensures NoSideEffect(w, w') && Winding(w'.tasks[t].pc) && w'.tasks[t].run == w.tasks[t].run
  {
    if s.Advance? {
      AdvanceQuietly(cfg, w, t, s.now);
      var pc := AdvanceTasks(cfg, w, t, s.now);
    }
  }

  lemma OtherStepQuiet(cfg: Config, w: World, s: Step, w': World, t: TaskId)
    requires Next(cfg, w, s, w') && t < |w.tasks| && !StepOf(s, t)
    ensures t < |w'.tasks| && w'.tasks[t] == w.tasks[t]
  {
    StepTask(cfg, w, s, w', t);
  }

  lemma QuietStep(cfg: Config, w: World, s: Step, w': World, t: TaskId)
    requires Next(cfg, w, s, w') && Quiet(w, t)
    ensures Quiet(w', t)
    ensures StepOf(s, t) ==> NoSideEffect(w, w')
  {
    StepGrows(cfg, w, s, w');
    if StepOf(s, t) { OwnStepQuiet(cfg, w, s, w', t); } else { OtherStepQuiet(cfg, w, s, w', t); }
  }

  lemma {:induction false} StaysQuiet(cfg: Config, ws: seq<World>, ss: seq<Step>, i: nat, k: nat, t: TaskId)
    requires Behavior(cfg, ws, ss) && i <= k < |ws| && Quiet(ws[i], t)
    ensures Quiet(ws[k], t)
  {
    if i < k {
      StaysQuiet(cfg, ws, ss, i, k - 1, t);
      assert StepAt(cfg, ws, ss, k - 1);
      QuietStep(cfg, ws[k - 1], ss[k - 1], ws[k], t);
    }
  }

  /**
   If a run is CANCELED while the task that processes it has not passed its cancel check, then
   no later step of that task inserts a retry, promotes or creates a dependent, or sends anything.
   */
  lemma CancelBeforeCheckIsClean(cfg: Config, ws: seq<World>, ss: seq<Step>, i: nat, k: nat, t: TaskId)
    requires Behavior(cfg, ws, ss) && i <= k < |ss|
    requires t < |ws[i].tasks| && BeforeCheck(ws[i].tasks[t].pc) && IsRunCanceled(ws[i].runs, ws[i].tasks[t].run)
    requires StepOf(ss[k], t)
    ensures NoSideEffect(ws[k], ws[k + 1])
  {
    StaysQuiet(cfg, ws, ss, i, k, t);
    assert StepAt(cfg, ws, ss, k);
    QuietStep(cfg, ws[k], ss[k], ws[k + 1], t);
  }

  // ------------------------------------------------------- a cancel that comes later

  /** Task `t` is interrupted while its call runs in a thread, and the call commits. */
  ghost predicate Interrupted(cfg: Config, w: World, t: TaskId, now: real, w1: World, w2: World) {
    && t < |w.tasks| && Next(cfg, w, Abort(t), w1) && Next(cfg, w1, Advance(|w.tasks|, now), w2)
    && |w2.tasks| == |w.tasks| + 1 && w2.tasks[t].pc == Acking && w2.tasks[|w.tasks|].pc == Done
    && w2.delayed == w.delayed && w2.stream == w.stream && w2.outbox == w.outbox
  }

  /**
   A cancel that finds a task inside `create_retry_run` does not stop the retry: a QUEUED retry of
   the CANCELED run is inserted, which nothing refers to but the orphan scan.
   */
  lemma CanceledRunIsRetried(cfg: Config, w: World, t: TaskId, now: real) returns (w1: World, w2: World)
    requires Live(w, t) && IsRunCanceled(w.runs, w.tasks[t].run) && w.tasks[t].pc.Retrying?
    ensures Interrupted(cfg, w, t, now, w1, w2)
    ensures var r := w.tasks[t].run;
            w2.runs == w.runs + [Run(w.runs[r].job, AutoRetry(r), Queued, w.runs[r].attempt + 1, now)]
  {
    w1 := Apply(cfg, w, Abort(t));
    w2 := Apply(cfg, w1, Advance(|w.tasks|, now));
  }

  /** Nor does it stop `create_dependency_run`: the dependent gets its QUEUED run, which no one publishes. */
  lemma CanceledRunFansOut(cfg: Config, w: World, t: TaskId, now: real) returns (w1: World, w2: World, d: RunId)
    requires Live(w, t) && IsRunCanceled(w.runs, w.tasks[t].run) && w.tasks[t].pc.FanOut? && w.tasks[t].pc.todo != []
    requires forall x :: 0 <= x < |w.runs| && w.runs[x].job == w.tasks[t].pc.todo[0] ==>
               w.runs[x].status != Queued && w.runs[x].status != Running
    ensures Interrupted(cfg, w, t, now, w1, w2)
    ensures d < |w2.runs| && w2.runs[d].job == w.tasks[t].pc.todo[0] && w2.runs[d].status == Queued
  {
    DependencyRunExact(w.runs, w.tasks[t].pc.todo[0], now);
    w1 := Apply(cfg, w, Abort(t));
    w2 := Apply(cfg, w1, Advance(|w.tasks|, now));
    d := CreateDependencyRun(w.runs, w.tasks[t].pc.todo[0], now).1.value;
  }
}
