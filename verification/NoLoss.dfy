/**
 "No run is lost": as long as reclaims only take entries of crashed workers, every RUNNING
 run has a stream entry whose holder is executing it, is dead, or is about to claim it.
 */
module NoLoss {
  import opened Runs
  import opened Protocol
  import opened Lifecycle
  import opened Claims
  import Trigger

  /** XAUTOCLAIM only took an entry whose holder has crashed. */
  ghost predicate SafeReclaim(w: World, s: Step) {
    s.Reclaim? && s.msg < |w.stream| && w.stream[s.msg].state.Held? ==>
      w.stream[s.msg].state.task < |w.tasks| && !Live(w, w.stream[s.msg].state.task)
  }

  /** Claimed, and still going to call `finish_run`. */
  predicate PreFinish(pc: Pc) {
    pc.Executing? || pc.Checking? || pc.Retrying? || pc.Delaying? || pc.Finishing?
  }

  /** A task whose entry keeps its run recoverable. */
  ghost predicate Attends(w: World, t: TaskId) {
    && t < |w.tasks|
    && (!Live(w, t) || PreFinish(w.tasks[t].pc) || (w.tasks[t].pc == Start && w.tasks[t].allowRunning))
  }

  ghost predicate Attended(w: World, r: RunId, m: MsgId) {
    && m < |w.stream| && w.stream[m].run == r
    && w.stream[m].state.Held? && Attends(w, w.stream[m].state.task)
  }

  ghost predicate RunningAttended(w: World) {
    forall r :: 0 <= r < |w.runs| && w.runs[r].status == Running ==> exists m :: Attended(w, r, m)
  }

  /** Program points at which a live task still owns its pending entry. */
  predicate Holds(pc: Pc) {
    InProcess(pc) || pc.Acking?
  }

  ghost predicate HolderOk(w: World, t: TaskId)
    requires t < |w.tasks| && w.tasks[t].msg < |w.stream|
  {
    && (Live(w, t) && Holds(w.tasks[t].pc) ==> w.stream[w.tasks[t].msg].state == Held(t))
    && (w.tasks[t].pc.Deleting? ==> w.stream[w.tasks[t].msg].state.Acked? || w.stream[w.tasks[t].msg].state.Deleted?)
  }

  ghost predicate EntryOk(w: World, m: MsgId)
    requires m < |w.stream|
  {
    w.stream[m].state.Held? ==>
      w.stream[m].state.task < |w.tasks| && w.tasks[w.stream[m].state.task].msg == m
  }

  ghost predicate Links(w: World) {
    && InFlightKnown(w)
    && (forall t :: 0 <= t < |w.tasks| ==> TaskKnown(w.runs, w.stream, w.tasks[t]) && HolderOk(w, t))
    && (forall m :: 0 <= m < |w.stream| ==> EntryOk(w, m))
  }

  // ------------------------------------------------------- links

  /** How a step may change an existing entry. */
  ghost predicate EntryChange(w: World, s: Step, w': World, m: MsgId)
    requires m < |w.stream| && m < |w'.stream| && |w.tasks| <= |w'.tasks|
  {
    || w'.stream[m] == w.stream[m]
    || ((s.Deliver? || s.Reclaim?) && s.msg == m && w'.stream[m].state == Held(|w.tasks|)
        && |w'.tasks| == |w.tasks| + 1
        && (s.Deliver? ==> w.stream[m].state == Unread) && (s.Reclaim? ==> w.stream[m].state.Held?))
    || (s.Advance? && Live(w, s.task) && w.tasks[s.task].msg == m
        && ((w.tasks[s.task].pc.Acking? && w'.tasks[s.task].pc.Deleting? && w'.stream[m].state == Acked)
            || (w.tasks[s.task].pc.Deleting? && w'.tasks[s.task].pc.Done? && w'.stream[m].state == Deleted)))
  }

  lemma StepEntryChange(cfg: Config, w: World, s: Step, w': World)
    requires Next(cfg, w, s, w')
    ensures |w.stream| <= |w'.stream| && |w.tasks| <= |w'.tasks|
    ensures forall m :: 0 <= m < |w.stream| ==> EntryChange(w, s, w', m)
    ensures !s.Crash? ==> w'.dead == w.dead
    ensures w.dead <= w'.dead
  {
    StepEntries(cfg, w, s, w');
    StepTasks(cfg, w, s, w');
    forall m | 0 <= m < |w.stream| ensures EntryChange(w, s, w', m) { EntryStep(cfg, w, s, w', m); }
  }

  lemma EntryStep(cfg: Config, w: World, s: Step, w': World, m: MsgId)
    requires Next(cfg, w, s, w') && m < |w.stream| <= |w'.stream| && |w.tasks| <= |w'.tasks|
    ensures EntryChange(w, s, w', m)
  {
    if s.Advance? { AdvanceEntryChange(cfg, w, s.task, s.now, w'); }
  }

  lemma AdvanceEntryChange(cfg: Config, w: World, t: TaskId, now: real, w': World)
    requires Live(w, t) && w.tasks[t].run < |w.runs| && w' == AdvanceTask(cfg, w, t, now)
    ensures |w.stream| <= |w'.stream| && |w.tasks| <= |w'.tasks|
    ensures forall m :: 0 <= m < |w.stream| ==> EntryChange(w, Advance(t, now), w', m)
  {}

  /** A task never comes back to owning its entry, and reaches the delete only by acking. */
  ghost predicate HoldsChange(w: World, s: Step, w': World, t: TaskId)
    requires t < |w.tasks| <= |w'.tasks|
  {
    && w'.tasks[t] == w.tasks[t].(pc := w'.tasks[t].pc)
    && (Holds(w'.tasks[t].pc) ==> Holds(w.tasks[t].pc))
    && (w'.tasks[t].pc.Deleting? ==>
          || w.tasks[t].pc.Deleting?
          || (w.tasks[t].msg < |w'.stream| ==> w'.stream[w.tasks[t].msg].state == Acked))
  }

  lemma StepHolds(cfg: Config, w: World, s: Step, w': World)
    requires Next(cfg, w, s, w')
    ensures |w.tasks| <= |w'.tasks|
    ensures forall t :: 0 <= t < |w.tasks| ==> HoldsChange(w, s, w', t)
  {
    StepTasks(cfg, w, s, w');
    forall t | 0 <= t < |w.tasks| ensures HoldsChange(w, s, w', t) {
      StepTask(cfg, w, s, w', t);
      HoldsStep(cfg, w, s, w', t);
    }
  }

  lemma HoldsStep(cfg: Config, w: World, s: Step, w': World, t: TaskId)
    requires t < |w.tasks| && TaskStep(cfg, w, s, w', t)
    ensures HoldsChange(w, s, w', t)
  {
    if s.Advance? && s.task == t && w'.tasks[t] != w.tasks[t] { AdvanceHolds(cfg, w, t, s.now); }
  }

  lemma AdvanceHolds(cfg: Config, w: World, t: TaskId, now: real)
    requires t < |w.tasks| && w.tasks[t].run < |w.runs| && w.tasks[t].pc != Executing && w.tasks[t].pc != Done
    ensures var w' := AdvanceTask(cfg, w, t, now);
            |w.tasks| <= |w'.tasks| && HoldsChange(w, Advance(t, now), w', t)
  {}

  ghost predicate NewTaskOk(w: World, s: Step, w': World)
    requires |w.tasks| < |w'.tasks|
  {
    var task := w'.tasks[|w.tasks|];
    && |w'.tasks| == |w.tasks| + 1
    && (|| (!Holds(task.pc) && !task.pc.Deleting?)
        || (task.pc == Start && task.msg < |w.stream| <= |w'.stream| && w'.stream[task.msg].state == Held(|w.tasks|)))
  }

  lemma StepNewTask(cfg: Config, w: World, s: Step, w': World)
    requires Next(cfg, w, s, w')
    ensures |w.tasks| <= |w'.tasks| && (|w.tasks| < |w'.tasks| ==> NewTaskOk(w, s, w'))
    ensures s.Deliver? || s.Reclaim? ==>
              |w.tasks| < |w'.tasks| && w'.tasks[|w.tasks|].msg == s.msg && w'.tasks[|w.tasks|].pc == Start
              && w'.tasks[|w.tasks|].allowRunning == s.Reclaim?
  {}

  lemma LinksStep(cfg: Config, w: World, s: Step, w': World)
    requires Next(cfg, w, s, w') && Links(w) && SafeReclaim(w, s)
    ensures Links(w')
  {
    InFlightKnownStep(cfg, w, s, w');
    StepEntries(cfg, w, s, w');
    StepEntryChange(cfg, w, s, w');
    StepHolds(cfg, w, s, w');
    StepNewTask(cfg, w, s, w');
    LinksFromChanges(w, s, w');
  }

  lemma LinksFromChanges(w: World, s: Step, w': World)
    requires Links(w) && SafeReclaim(w, s) && InFlightKnown(w')
    requires |w.stream| <= |w'.stream| && |w.tasks| <= |w'.tasks| && w.dead <= w'.dead
    requires forall m :: 0 <= m < |w.stream| ==> EntryChange(w, s, w', m)
    requires forall m :: |w.stream| <= m < |w'.stream| ==> w'.stream[m].state == Unread
    requires forall t :: 0 <= t < |w.tasks| ==> HoldsChange(w, s, w', t)
    requires |w.tasks| < |w'.tasks| ==> NewTaskOk(w, s, w')
    requires (s.Deliver? || s.Reclaim?) && |w.tasks| < |w'.tasks| ==> w'.tasks[|w.tasks|].msg == s.msg
    ensures Links(w')
  {
    forall m | 0 <= m < |w'.stream| ensures EntryOk(w', m) {
      if m < |w.stream| {
        assert EntryChange(w, s, w', m) && EntryOk(w, m);
        if w.stream[m].state.Held? { assert HoldsChange(w, s, w', w.stream[m].state.task); }
      }
    }
    forall t | 0 <= t < |w'.tasks| ensures TaskKnown(w'.runs, w'.stream, w'.tasks[t]) && HolderOk(w', t) {
      assert TaskKnown(w'.runs, w'.stream, w'.tasks[t]);
      if t < |w.tasks| { HolderStep(w, s, w', t); }
    }
  }

  lemma HolderStep(w: World, s: Step, w': World, t: TaskId)
    requires Links(w) && SafeReclaim(w, s)
    requires |w.stream| <= |w'.stream| && t < |w.tasks| <= |w'.tasks| && w.dead <= w'.dead
    requires w.tasks[t].msg < |w.stream| && EntryChange(w, s, w', w.tasks[t].msg)
    requires HoldsChange(w, s, w', t) && w'.tasks[t].msg < |w'.stream|
    ensures HolderOk(w', t)
  {
    assert HolderOk(w, t);
    if s.Advance? && Live(w, s.task) { assert HolderOk(w, s.task); }
  }

  // ------------------------------------------------------- RUNNING runs stay attended

  /** Only a claim makes a run RUNNING. */
  lemma RunningSource(cfg: Config, w: World, s: Step, w': World, r: RunId)
    requires Next(cfg, w, s, w') && r < |w'.runs| && w'.runs[r].status == Running
    ensures (r < |w.runs| && w.runs[r].status == Running) || (ClaimsRun(w, s, r) && w'.tasks[s.task].pc == Executing)
  {
    if s.TriggerJob? {
      var plan := Trigger.TriggerPlan(cfg.edges, w.runs, s.job, s.now);
      if plan.Plan? { TriggerExtends(cfg, w.runs, s.job, s.now, plan); }
    }
  }

  /** A task that attends a RUNNING run keeps attending it until the run is no longer RUNNING. */
  lemma StepAttends(cfg: Config, w: World, s: Step, w': World, t: TaskId)
    requires Next(cfg, w, s, w') && Attends(w, t) && w.tasks[t].run < |w.runs|
    ensures |w.tasks| <= |w'.tasks|
    ensures Attends(w', t) || (w.tasks[t].run < |w'.runs| && w'.runs[w.tasks[t].run].status != Running)
  {
    StepTask(cfg, w, s, w', t);
    AttendsStep(cfg, w, s, w', t);
  }

  lemma AttendsStep(cfg: Config, w: World, s: Step, w': World, t: TaskId)
    requires Attends(w, t) && w.tasks[t].run < |w.runs| && TaskStep(cfg, w, s, w', t) && (s.Advance? ==>
              Live(w, s.task))
    ensures Attends(w', t) || (w.tasks[t].run < |w'.runs| && w'.runs[w.tasks[t].run].status != Running)
  {
    if s.Advance? && s.task == t && w'.tasks[t] != w.tasks[t] { AdvanceAttends(cfg, w, t, s.now); }
  }

  lemma AdvanceAttends(cfg: Config, w: World, t: TaskId, now: real)
    requires Attends(w, t) && Live(w, t) && w.tasks[t].run < |w.runs| && w.tasks[t].pc != Executing
    ensures var w' := AdvanceTask(cfg, w, t, now);
            Attends(w', t) || w'.runs[w.tasks[t].run].status != Running
  {}

  lemma AttendedStep(cfg: Config, w: World, s: Step, w': World, r: RunId)
    requires Next(cfg, w, s, w') && Links(w) && SafeReclaim(w, s) && RunningAttended(w)
    requires r < |w'.runs| && w'.runs[r].status == Running
    ensures exists m :: Attended(w', r, m)
  {
    RunningSource(cfg, w, s, w', r);
    StepEntryChange(cfg, w, s, w');
    StepEntries(cfg, w, s, w');
    if r < |w.runs| && w.runs[r].status == Running {
      var m: MsgId :| Attended(w, r, m);
      var t := w.stream[m].state.task;
      assert EntryOk(w, m) && TaskKnown(w.runs, w.stream, w.tasks[t]);
      StepAttends(cfg, w, s, w', t);
      StepNewTask(cfg, w, s, w');
      AttendedPersists(w, s, w', r, m);
    } else {
      var m := w.tasks[s.task].msg;
      assert TaskKnown(w.runs, w.stream, w.tasks[s.task]) && HolderOk(w, s.task) && EntryChange(w, s, w', m);
      assert Attended(w', r, m);
    }
  }

  lemma AttendedPersists(w: World, s: Step, w': World, r: RunId, m: MsgId)
    requires Links(w) && SafeReclaim(w, s) && Attended(w, r, m)
    requires m < |w'.stream| && |w.tasks| <= |w'.tasks| && EntryChange(w, s, w', m) && w'.stream[m].run == r
    requires Attends(w', w.stream[m].state.task)
    requires s.Deliver? || s.Reclaim? ==>
               |w.tasks| < |w'.tasks| && w'.tasks[|w.tasks|].pc == Start
               && w'.tasks[|w.tasks|].allowRunning == s.Reclaim?
    ensures Attended(w', r, m)
  {
    if s.Advance? && Live(w, s.task) { assert HolderOk(w, s.task); }
  }

  ghost predicate NothingLost(w: World) {
    Links(w) && RunningAttended(w)
  }

  lemma NothingLostStep(cfg: Config, w: World, s: Step, w': World)
    requires Next(cfg, w, s, w') && NothingLost(w) && SafeReclaim(w, s)
    ensures NothingLost(w')
  {
    LinksStep(cfg, w, s, w');
    forall r | 0 <= r < |w'.runs| && w'.runs[r].status == Running ensures exists m :: Attended(w', r, m) {
      AttendedStep(cfg, w, s, w', r);
    }
  }

  /** No run is lost, with crashes at any step, if reclaims only take entries of crashed workers. */
  lemma {:induction false} NoRunIsLost(cfg: Config, ws: seq<World>, ss: seq<Step>, i: nat)
    requires Behavior(cfg, ws, ss) && i < |ws|
    requires forall k :: 0 <= k < |ss| ==> SafeReclaim(ws[k], ss[k])
    ensures NothingLost(ws[i])
  {
    if i > 0 {
      NoRunIsLost(cfg, ws, ss, i - 1);
      assert StepAt(cfg, ws, ss, i - 1);
      NothingLostStep(cfg, ws[i - 1], ss[i - 1], ws[i]);
    }
  }
}
