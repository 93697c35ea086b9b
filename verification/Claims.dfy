/** How often a run can be claimed, under arbitrary duplicates, crashes and reclaims. */
module Claims {
  import opened Runs
  import opened Store
  import opened Protocol

  /** The step is a successful claim of run `r`. */
  ghost predicate ClaimsRun(w: World, s: Step, r: RunId) {
    && s.Advance? && s.task < |w.tasks| && w.tasks[s.task].pc == Start && w.tasks[s.task].run == r
    && CanClaim(w.runs, r, w.tasks[s.task].allowRunning)
  }

  /** The step moves run `r` out of PENDING/QUEUED by a claim. */
  ghost predicate FirstClaim(w: World, s: Step, r: RunId) {
    ClaimsRun(w, s, r) && !w.runs[r].status.Running?
  }

  ghost predicate ReclaimsRun(w: World, s: Step, r: RunId) {
    s.Reclaim? && s.msg < |w.stream| && w.stream[s.msg].run == r
  }

  /** Claims, first claims and reclaimed deliveries of `r` among the first `n` steps. */
  ghost function ClaimCount(ws: seq<World>, ss: seq<Step>, n: nat, r: RunId): nat
    requires n <= |ss| <= |ws|
  {
    if n == 0 then 0
    else ClaimCount(ws, ss, n - 1, r) + if ClaimsRun(ws[n - 1], ss[n - 1], r) then 1 else 0
  }

  ghost function FirstClaimCount(ws: seq<World>, ss: seq<Step>, n: nat, r: RunId): nat
    requires n <= |ss| <= |ws|
  {
    if n == 0 then 0
    else FirstClaimCount(ws, ss, n - 1, r) + if FirstClaim(ws[n - 1], ss[n - 1], r) then 1 else 0
  }

  ghost function ReclaimCount(ws: seq<World>, ss: seq<Step>, n: nat, r: RunId): nat
    requires n <= |ss| <= |ws|
  {
    if n == 0 then 0
    else ReclaimCount(ws, ss, n - 1, r) + if ReclaimsRun(ws[n - 1], ss[n - 1], r) then 1 else 0
  }

  // ------------------------------------------------------- claims still to come

  /** 1 while the run has not been claimed (or does not exist yet). */
  ghost function Unclaimed(w: World, r: RunId): nat {
    if r >= |w.runs| || w.runs[r].status.Pending? || w.runs[r].status.Queued? then 1 else 0
  }

  /** A reclaimed delivery of `r` that has not tried its claim yet. */
  ghost predicate MayReclaim(task: Task, r: RunId) {
    task.pc == Start && task.allowRunning && task.run == r
  }

  ghost function Waiting(tasks: seq<Task>, r: RunId): nat {
    if tasks == [] then 0
    else Waiting(tasks[..|tasks| - 1], r) + if MayReclaim(tasks[|tasks| - 1], r) then 1 else 0
  }

  lemma {:induction false} WaitingAppend(tasks: seq<Task>, task: Task, r: RunId)
    ensures Waiting(tasks + [task], r) == Waiting(tasks, r) + if MayReclaim(task, r) then 1 else 0
  {
    assert (tasks + [task])[..|tasks|] == tasks;
  }

  lemma {:induction false} WaitingUpdate(tasks: seq<Task>, t: nat, task: Task, r: RunId)
    requires t < |tasks|
    ensures Waiting(tasks[t := task], r) + (if MayReclaim(tasks[t], r) then 1 else 0)
         == Waiting(tasks, r) + if MayReclaim(task, r) then 1 else 0
  {
    var n := |tasks| - 1;
    if t == n {
      assert tasks[t := task][..n] == tasks[..n];
    } else {
      WaitingUpdate(tasks[..n], t, task, r);
      assert tasks[t := task][..n] == tasks[..n][t := task];
    }
  }

  /** A step never puts a task back at its start. */
  lemma AdvancePc(cfg: Config, w: World, t: TaskId, now: real)
    requires t < |w.tasks| && w.tasks[t].run < |w.runs| && w.tasks[t].pc != Executing && w.tasks[t].pc != Done
    ensures var w' := AdvanceTask(cfg, w, t, now);
            |w'.tasks| == |w.tasks| && w'.tasks == Goto(w.tasks, t, w'.tasks[t].pc) && w'.tasks[t].pc != Start
  {}

  lemma {:induction false} WaitingAbort(w: World, t: TaskId, r: RunId)
    requires t < |w.tasks|
    ensures Waiting(Goto(w.tasks, t, Acking) + LeftBehind(w.tasks[t]), r) <= Waiting(w.tasks, r)
  {
    var tasks := Goto(w.tasks, t, Acking);
    WaitingUpdate(w.tasks, t, tasks[t], r);
    if LeftBehind(w.tasks[t]) == [] {
      assert tasks + [] == tasks;
    } else {
      WaitingAppend(tasks, LeftBehind(w.tasks[t])[0], r);
      assert LeftBehind(w.tasks[t]) == [LeftBehind(w.tasks[t])[0]];
    }
  }

  lemma {:induction false} WaitingStep(cfg: Config, w: World, s: Step, w': World, r: RunId)
    requires Next(cfg, w, s, w')
    ensures Waiting(w'.tasks, r)
         <= Waiting(w.tasks, r) + (if ReclaimsRun(w, s, r) then 1 else 0)
            - if s.Advance? && MayReclaim(w.tasks[s.task], r) then 1 else 0
  {
    match s
    case Advance(t, now) =>
      AdvancePc(cfg, w, t, now);
      WaitingUpdate(w.tasks, t, w'.tasks[t], r);
    case Execute(t, _) => WaitingUpdate(w.tasks, t, w'.tasks[t], r);
    case Deliver(_, _) => WaitingAppend(w.tasks, w'.tasks[|w.tasks|], r);
    case Reclaim(_, _) => WaitingAppend(w.tasks, w'.tasks[|w.tasks|], r);
    case Abort(t) => WaitingAbort(w, t, r);
    case _ => assert w'.tasks == w.tasks;
  }

  /** Claiming moves the run past QUEUED, and nothing moves it back. */
  lemma UnclaimedStep(cfg: Config, w: World, s: Step, w': World, r: RunId)
    requires Next(cfg, w, s, w')
    ensures Unclaimed(w', r) <= Unclaimed(w, r)
    ensures ClaimsRun(w, s, r) ==> Unclaimed(w', r) == 0
  {
    StepGrows(cfg, w, s, w');
  }

  /** One step's worth of the accounting. */
  ghost predicate Balanced(w: World, s: Step, w': World, r: RunId) {
    && (if FirstClaim(w, s, r) then 1 else 0) + Unclaimed(w', r) <= Unclaimed(w, r)
    && (if ClaimsRun(w, s, r) then 1 else 0) + Unclaimed(w', r) + Waiting(w'.tasks, r)
         <= Unclaimed(w, r) + Waiting(w.tasks, r) + if ReclaimsRun(w, s, r) then 1 else 0
  }

  lemma StepBalanced(cfg: Config, w: World, s: Step, w': World, r: RunId)
    requires Next(cfg, w, s, w')
    ensures Balanced(w, s, w', r)
  {
    UnclaimedStep(cfg, w, s, w', r);
    WaitingStep(cfg, w, s, w', r);
  }

  lemma {:induction false} SumBalanced(ws: seq<World>, ss: seq<Step>, n: nat, r: RunId)
    requires |ws| == |ss| + 1 && n <= |ss| && ws[0] == INIT
    requires forall i :: 0 <= i < |ss| ==> Balanced(ws[i], ss[i], ws[i + 1], r)
    ensures FirstClaimCount(ws, ss, n, r) + Unclaimed(ws[n], r) <= 1
    ensures ClaimCount(ws, ss, n, r) + Unclaimed(ws[n], r) + Waiting(ws[n].tasks, r)
         <= 1 + ReclaimCount(ws, ss, n, r)
  {
    if n > 0 {
      SumBalanced(ws, ss, n - 1, r);
      assert Balanced(ws[n - 1], ss[n - 1], ws[n - 1 + 1], r);
    }
  }

  /**
   A run is moved out of PENDING/QUEUED by a claim at most once, and is claimed at most once
   more per reclaimed delivery, whatever duplicates and orphan re-enqueues there are.
   */
  lemma {:induction false} ClaimAccounting(cfg: Config, ws: seq<World>, ss: seq<Step>, n: nat, r: RunId)
    requires Behavior(cfg, ws, ss) && n <= |ss|
    ensures FirstClaimCount(ws, ss, n, r) <= 1
    ensures ClaimCount(ws, ss, n, r) <= 1 + ReclaimCount(ws, ss, n, r)
  {
    forall i | 0 <= i < |ss| ensures Balanced(ws[i], ss[i], ws[i + 1], r) {
      assert StepAt(cfg, ws, ss, i);
      StepBalanced(cfg, ws[i], ss[i], ws[i + 1], r);
    }
    SumBalanced(ws, ss, n, r);
  }

  /** Without reclaims of its entries a run is executed at most once. */
  lemma {:induction false} AtMostOneExecution(cfg: Config, ws: seq<World>, ss: seq<Step>, r: RunId)
    requires Behavior(cfg, ws, ss)
    requires forall i :: 0 <= i < |ss| ==> !ReclaimsRun(ws[i], ss[i], r)
    ensures ClaimCount(ws, ss, |ss|, r) <= 1
  {
    ClaimAccounting(cfg, ws, ss, |ss|, r);
    NoReclaimCount(ws, ss, |ss|, r);
  }

  lemma {:induction false} NoReclaimCount(ws: seq<World>, ss: seq<Step>, n: nat, r: RunId)
    requires n <= |ss| <= |ws|
    requires forall i :: 0 <= i < |ss| ==> !ReclaimsRun(ws[i], ss[i], r)
    ensures ReclaimCount(ws, ss, n, r) == 0
  {
    if n > 0 { NoReclaimCount(ws, ss, n - 1, r); }
  }
}
