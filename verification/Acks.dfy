/**
 "Ack only after reaching a terminal state": exactly which deliveries are acked while their run
 is not terminal.
 */
module Acks {
  import opened Runs
  import opened Protocol
  import opened Lifecycle
  import opened Recovery

  /** The claim of task `t` is refused because its run is RUNNING and the delivery is no reclaim. */
  ghost predicate Refused(w: World, s: Step, t: TaskId) {
    && s.Advance? && s.task == t < |w.tasks| && w.tasks[t].pc == Start && !w.tasks[t].allowRunning
    && w.tasks[t].run < |w.runs| && w.runs[w.tasks[t].run].status == Running
  }

  predicate Acknowledges(pc: Pc) { pc.Acking? || pc.Deleting? }

  predicate FansOut(pc: Pc) { pc.Reading? || pc.FanOut? || pc.Sending? }

  ghost predicate RunTerminal(w: World, t: TaskId) {
    t < |w.tasks| && w.tasks[t].run < |w.runs| && Terminal(w.runs[w.tasks[t].run].status)
  }

  /** A task that fans out has finished its run. */
  ghost predicate FinishedFirst(w: World) {
    InFlightKnown(w) && forall t :: 0 <= t < |w.tasks| && FansOut(w.tasks[t].pc) ==> RunTerminal(w, t)
  }

  lemma AdvanceFinished(cfg: Config, w: World, t: TaskId, now: real)
    requires FinishedFirst(w) && t < |w.tasks| && w.tasks[t].run < |w.runs|
    requires w.tasks[t].pc != Executing && w.tasks[t].pc != Done
    ensures var w' := AdvanceTask(cfg, w, t, now);
            && |w'.tasks| == |w.tasks| && w.tasks[t].run < |w'.runs|
            && (FansOut(w'.tasks[t].pc) ==> Terminal(w'.runs[w.tasks[t].run].status))
            && (w'.tasks[t].pc == Acking ==>
                  (Terminal(w'.runs[w.tasks[t].run].status) <==> !Refused(w, Advance(t, now), t)))
  {
    assert FansOut(w.tasks[t].pc) ==> RunTerminal(w, t);
    assert TaskKnown(w.runs, w.stream, w.tasks[t]);
    AdvanceGrows(cfg, w, t, now);
  }

  lemma FinishedFirstStep(cfg: Config, w: World, s: Step, w': World)
    requires Next(cfg, w, s, w') && FinishedFirst(w)
    ensures FinishedFirst(w')
  {
    InFlightKnownStep(cfg, w, s, w');
    StepGrows(cfg, w, s, w');
    StepTasks(cfg, w, s, w');
    if s.Advance? { AdvanceFinished(cfg, w, s.task, s.now); }
    forall t | 0 <= t < |w'.tasks| && FansOut(w'.tasks[t].pc) ensures RunTerminal(w', t) {
      FinishedTask(w, s, w', t);
    }
  }

  lemma FinishedTask(w: World, s: Step, w': World, t: TaskId)
    requires FinishedFirst(w) && t < |w'.tasks| && TaskSource(w, s, w', t) && Grows(w.runs, w'.runs)
    requires FansOut(w'.tasks[t].pc) && (s.Execute? ==> s.task < |w'.tasks| && w'.tasks[s.task].pc.Checking?)
    requires s.Abort? ==> s.task < |w'.tasks| && w'.tasks[s.task].pc == Acking
    requires s.Advance? && s.task == t < |w.tasks| ==>
               w.tasks[t].run < |w'.runs| && Terminal(w'.runs[w.tasks[t].run].status)
    ensures RunTerminal(w', t)
  {
    if t < |w.tasks| && w'.tasks[t] == w.tasks[t] { assert RunTerminal(w, t); }
  }

  lemma {:induction false} FinishedFirstAlways(cfg: Config, ws: seq<World>, ss: seq<Step>, i: nat)
    requires Behavior(cfg, ws, ss) && i < |ws|
    ensures FinishedFirst(ws[i])
  {
    if i > 0 {
      FinishedFirstAlways(cfg, ws, ss, i - 1);
      assert StepAt(cfg, ws, ss, i - 1);
      FinishedFirstStep(cfg, ws[i - 1], ss[i - 1], ws[i]);
    }
  }

  /**
   In every behaviour, a task turns to acking its delivery with the run not terminal if and only
   if its claim has just been refused because the run is RUNNING and the delivery is no reclaim.
   */
  lemma EarlyAckIff(cfg: Config, ws: seq<World>, ss: seq<Step>, i: nat, t: TaskId)
    requires Behavior(cfg, ws, ss) && i < |ss| && t < |ws[i].tasks|
    requires !Acknowledges(ws[i].tasks[t].pc) && ws[i].tasks[t].pc != Done
    ensures |ws[i].tasks| <= |ws[i + 1].tasks|
    ensures ws[i + 1].tasks[t].pc == Acking && !RunTerminal(ws[i + 1], t) <==> Refused(ws[i], ss[i], t)
  {
    FinishedFirstAlways(cfg, ws, ss, i);
    assert StepAt(cfg, ws, ss, i);
    EarlyAckStep(cfg, ws[i], ss[i], ws[i + 1], t);
  }

  lemma EarlyAckStep(cfg: Config, w: World, s: Step, w': World, t: TaskId)
    requires Next(cfg, w, s, w') && FinishedFirst(w) && t < |w.tasks|
    requires !Acknowledges(w.tasks[t].pc) && w.tasks[t].pc != Done
    ensures |w.tasks| <= |w'.tasks|
    ensures w'.tasks[t].pc == Acking && !RunTerminal(w', t) <==> Refused(w, s, t)
  {
    StepTasks(cfg, w, s, w');
    assert TaskSource(w, s, w', t);
    if s.Advance? && s.task == t { AdvanceFinished(cfg, w, t, s.now); }
  }

  ghost predicate WasRefused(ws: seq<World>, ss: seq<Step>, i: nat, t: TaskId)
    requires i <= |ss| <= |ws|
  {
    exists k :: 0 <= k < i && Refused(ws[k], ss[k], t)
  }

  /**
   Whenever a task acks or deletes its delivery, its run is terminal, or its own claim was
   refused earlier for that reason.
   */
  lemma {:induction false} AckedTerminalOrRefused(cfg: Config, ws: seq<World>, ss: seq<Step>, i: nat, t: TaskId)
    requires Behavior(cfg, ws, ss) && i <= |ss| && t < |ws[i].tasks| && Acknowledges(ws[i].tasks[t].pc)
    ensures RunTerminal(ws[i], t) || WasRefused(ws, ss, i, t)
  {
    var w, s, w' := ws[i - 1], ss[i - 1], ws[i];
    assert StepAt(cfg, ws, ss, i - 1);
    StepTasks(cfg, w, s, w');
    assert TaskSource(w, s, w', t);
    AckedBefore(cfg, w, s, w', t);
    if Acknowledges(w.tasks[t].pc) {
      AckedTerminalOrRefused(cfg, ws, ss, i - 1, t);
      if RunTerminal(w, t) { StepGrows(cfg, w, s, w'); }
    } else {
      EarlyAckIff(cfg, ws, ss, i - 1, t);
    }
  }

  /** A task comes to acking by a step of its own, and to deleting only from there. */
  lemma AckedBefore(cfg: Config, w: World, s: Step, w': World, t: TaskId)
    requires Next(cfg, w, s, w') && t < |w'.tasks| && Acknowledges(w'.tasks[t].pc)
    ensures t < |w.tasks| && w.tasks[t].pc != Done && w'.tasks[t].run == w.tasks[t].run
    ensures Acknowledges(w.tasks[t].pc) || w'.tasks[t].pc == Acking
  {
    StepTasks(cfg, w, s, w');
    assert TaskSource(w, s, w', t);
    StepTask(cfg, w, s, w', t);
    if s.Advance? && s.task == t { DeletesAfterAck(cfg, w, t, s.now); }
  }

  lemma DeletesAfterAck(cfg: Config, w: World, t: TaskId, now: real)
    requires t < |w.tasks| && w.tasks[t].run < |w.runs|
    ensures AdvanceTask(cfg, w, t, now).tasks[t].pc == Deleting ==> Acknowledges(w.tasks[t].pc)
  {}

  /** An entry is acked while its run is RUNNING, by a worker that has not crashed. */
  lemma EarlyAckReachable()
    ensures Behavior(ONE_JOB, LostWorlds(), LostSteps())
    ensures Refused(LostWorlds()[5], LostSteps()[5], 0)
    ensures LostWorlds()[6].tasks[0].pc == Acking && Live(LostWorlds()[6], 0) && LostSteps()[6] == Advance(0, 0.0)
    ensures LostWorlds()[7].stream[0].state == Acked && LostWorlds()[7].runs[0].status == Running
  {
    LostRunReachable();
  }
}
