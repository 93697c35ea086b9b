/**
 What holds when no entry is ever reclaimed: one execution owns a run at a time, a terminal
 status is final, and automatic retries form a chain rather than a tree.
 */
module WithoutReclaims {
  import opened Runs
  import opened Store
  import opened RetryPolicy
  import opened Protocol
  import opened Lifecycle
  import opened Claims
  import opened NoLoss
  import opened DependencySafety
  import Trigger

  ghost predicate NoReclaims(ss: seq<Step>) {
    forall i :: 0 <= i < |ss| ==> !ss[i].Reclaim?
  }

  /** A task that has claimed its run and may still write to it or retry it. */
  predicate Owns(pc: Pc) {
    PreFinish(pc) || pc.LateRetry?
  }

  ghost predicate OwnerOk(w: World, task: Task) {
    && task.run < |w.runs| && !task.allowRunning
    && (Owns(task.pc) ==>
          w.runs[task.run].status == Canceled || (w.runs[task.run].status == Running && PreFinish(task.pc)))
  }

  ghost predicate Exclusive(w: World) {
    forall t, u :: 0 <= t < u < |w.tasks| && Owns(w.tasks[t].pc) && Owns(w.tasks[u].pc) ==>
          w.tasks[t].run != w.tasks[u].run
  }

  /** Run `p` has been retried: nobody will retry it again. */
  ghost predicate RetriedOk(w: World, p: RunId) {
    && p < |w.runs| && !w.runs[p].status.Pending? && !w.runs[p].status.Queued?
    && (forall t :: 0 <= t < |w.tasks| && w.tasks[t].run == p ==> !MayRetry(w.tasks[t].pc))
  }

  ghost predicate RetriesOk(w: World) {
    && (forall r :: 0 <= r < |w.runs| && w.runs[r].origin.AutoRetry? ==> RetriedOk(w, w.runs[r].origin.parent))
    && RetriedOnce(w.runs)
  }

  /** No run has two automatic retries. */
  ghost predicate RetriedOnce(runs: seq<Run>) {
    forall r, q :: 0 <= r < q < |runs| && runs[r].origin.AutoRetry? ==> runs[q].origin != runs[r].origin
  }

  ghost predicate Owned(w: World) {
    && InFlightKnown(w)
    && (forall t :: 0 <= t < |w.tasks| ==> OwnerOk(w, w.tasks[t]))
    && Exclusive(w)
    && RetriesOk(w)
  }

  // ------------------------------------------------------- what a step does to owners and statuses

  /** Ownership starts with a claim, and a retry is only ever created by an owner. */
  ghost predicate OwnChange(w: World, s: Step, w': World, t: TaskId)
    requires t < |w'.tasks|
  {
    Owns(w'.tasks[t].pc) ==>
      || (t < |w.tasks| && w'.tasks[t].run == w.tasks[t].run && Owns(w.tasks[t].pc)
          && (PreFinish(w.tasks[t].pc) ==> PreFinish(w'.tasks[t].pc))
          && (MayRetry(w'.tasks[t].pc) ==> MayRetry(w.tasks[t].pc)))
      || (t < |w.tasks| && ClaimsRun(w, s, w'.tasks[t].run) && s.task == t && w'.tasks[t].run == w.tasks[t].run
          && w'.tasks[t].pc == Executing)
      || (t == |w.tasks| && s.Abort? && s.task < |w.tasks| && w.tasks[s.task].pc.Retrying? && !Owns(w'.tasks[s.task].pc)
          && w'.tasks[t].run == w.tasks[s.task].run && IsRunCanceled(w.runs, w'.tasks[t].run)
          && w'.tasks[t].pc.LateRetry?)
  }

  lemma AdvanceOwn(cfg: Config, w: World, t: TaskId, now: real, w': World)
    requires Next(cfg, w, Advance(t, now), w')
    ensures t < |w'.tasks| && OwnChange(w, Advance(t, now), w', t)
  {
    AdvancePc(cfg, w, t, now);
    if w.tasks[t].pc != Start { OwnedBefore(cfg, w, t, now); }
  }

  /** Past the claim a task only moves on to points it owned before. */
  lemma OwnedBefore(cfg: Config, w: World, t: TaskId, now: real)
    requires t < |w.tasks| && w.tasks[t].run < |w.runs| && w.tasks[t].pc != Start
    ensures t < |AdvanceTask(cfg, w, t, now).tasks|
    ensures var pc, pc' := w.tasks[t].pc, AdvanceTask(cfg, w, t, now).tasks[t].pc;
            Owns(pc') ==> Owns(pc) && (PreFinish(pc) ==> PreFinish(pc')) && (MayRetry(pc') ==> MayRetry(pc))
  {
    match w.tasks[t].pc
    case Checking(_) =>
    case Retrying(_) =>
    case Delaying(_, _) =>
    case Finishing(_) =>
    case Executing =>
    case _ => NeverOwned(cfg, w, t, now);
  }

  lemma NeverOwned(cfg: Config, w: World, t: TaskId, now: real)
    requires t < |w.tasks| && w.tasks[t].run < |w.runs| && w.tasks[t].pc != Start && w.tasks[t].pc != Executing
    requires !w.tasks[t].pc.Checking? && !w.tasks[t].pc.Retrying?
    requires !w.tasks[t].pc.Delaying? && !w.tasks[t].pc.Finishing?
    ensures t < |AdvanceTask(cfg, w, t, now).tasks| && !Owns(AdvanceTask(cfg, w, t, now).tasks[t].pc)
  {}

  lemma StepOwn(cfg: Config, w: World, s: Step, w': World, t: TaskId)
    requires Next(cfg, w, s, w') && t < |w'.tasks|
    ensures OwnChange(w, s, w', t)
  {
    if s.Advance? && s.task == t {
      AdvanceOwn(cfg, w, t, s.now, w');
    } else {
      StepTasks(cfg, w, s, w');
      assert TaskSource(w, s, w', t);
    }
  }

  /** A status that may matter to an owner changes only by a claim, a cancel or the owner's finish. */
  ghost predicate StatusChange(w: World, s: Step, w': World, r: RunId)
    requires r < |w.runs| <= |w'.runs|
  {
    || w'.runs[r].status == w.runs[r].status
    || (w.runs[r].status.Pending? && w'.runs[r].status.Queued?)
    || (ClaimsRun(w, s, r) && w'.runs[r].status.Running?)
    || (Active(w.runs[r].status) && w'.runs[r].status.Canceled?)
    || (s.Advance? && s.task < |w.tasks| && w.tasks[s.task].pc.Finishing? && w.tasks[s.task].run == r
        && s.task < |w'.tasks| && !Owns(w'.tasks[s.task].pc))
  }

  lemma AdvanceStatus(cfg: Config, w: World, t: TaskId, now: real, w': World, r: RunId)
    requires Next(cfg, w, Advance(t, now), w') && r < |w.runs| <= |w'.runs|
    ensures StatusChange(w, Advance(t, now), w', r)
  {}

  lemma StepStatus(cfg: Config, w: World, s: Step, w': World, r: RunId)
    requires Next(cfg, w, s, w') && r < |w.runs| <= |w'.runs|
    ensures StatusChange(w, s, w', r)
  {
    if s.Advance? {
      AdvanceStatus(cfg, w, s.task, s.now, w', r);
    } else if s.TriggerJob? {
      var plan := Trigger.TriggerPlan(cfg.edges, w.runs, s.job, s.now);
      if plan.Plan? { TriggerExtends(cfg, w.runs, s.job, s.now, plan); }
    }
  }

  // ------------------------------------------------------- one owner at a time

  /** A run that is being claimed has no owner yet. */
  lemma ClaimIsFirst(w: World, s: Step, r: RunId)
    requires Owned(w) && ClaimsRun(w, s, r)
    ensures !w.runs[r].status.Running? && !w.runs[r].status.Canceled?
    ensures forall t :: 0 <= t < |w.tasks| && w.tasks[t].run == r ==> !Owns(w.tasks[t].pc)
  {
    assert OwnerOk(w, w.tasks[s.task]);
    forall t | 0 <= t < |w.tasks| && w.tasks[t].run == r ensures !Owns(w.tasks[t].pc) { assert OwnerOk(w, w.tasks[t]); }
  }

  lemma OwnerStep(w: World, s: Step, w': World, t: TaskId)
    requires Owned(w) && !s.Reclaim? && Grows(w.runs, w'.runs) && |w.tasks| <= |w'.tasks|
    requires t < |w'.tasks| && TaskSource(w, s, w', t) && OwnChange(w, s, w', t)
    requires forall r :: 0 <= r < |w.runs| ==> StatusChange(w, s, w', r)
    requires ClaimsRun(w, s, w'.tasks[t].run) && s.task == t ==> w'.runs[w'.tasks[t].run].status == Running
    ensures OwnerOk(w', w'.tasks[t])
  {
    if t < |w.tasks| {
      assert OwnerOk(w, w.tasks[t]) && StatusChange(w, s, w', w.tasks[t].run);
      if Owns(w'.tasks[t].pc) && Owns(w.tasks[t].pc) {
        if ClaimsRun(w, s, w.tasks[t].run) { ClaimIsFirst(w, s, w.tasks[t].run); assert false; }
        if s.Advance? && s.task < |w.tasks| && w.tasks[s.task].run == w.tasks[t].run && w.tasks[s.task].pc.Finishing? {
          assert s.task == t;
        }
      }
    } else if s.Abort? {
      assert OwnerOk(w, w.tasks[s.task]);
    } else {
      assert Known(w.runs, w.stream[s.msg].run);
    }
  }

  lemma ExclusiveStep(w: World, s: Step, w': World)
    requires Owned(w) && |w.tasks| <= |w'.tasks|
    requires forall t :: 0 <= t < |w'.tasks| ==> TaskSource(w, s, w', t) && OwnChange(w, s, w', t)
    ensures Exclusive(w')
  {
    forall t, u | 0 <= t < u < |w'.tasks| && Owns(w'.tasks[t].pc) && Owns(w'.tasks[u].pc)
      ensures w'.tasks[t].run != w'.tasks[u].run
    {
      assert OwnChange(w, s, w', t) && OwnChange(w, s, w', u) && TaskSource(w, s, w', t) && TaskSource(w, s, w', u);
      if s.Advance? && ClaimsRun(w, s, w'.tasks[t].run) { ClaimIsFirst(w, s, w'.tasks[t].run); }
      if s.Advance? && ClaimsRun(w, s, w'.tasks[u].run) { ClaimIsFirst(w, s, w'.tasks[u].run); }
    }
  }

  // ------------------------------------------------------- retries form a chain

  /** A retried run is never claimed or owned again, so it stays retried. */
  lemma RetriedStep(w: World, s: Step, w': World, p: RunId)
    requires Owned(w) && RetriedOk(w, p) && Grows(w.runs, w'.runs) && |w.tasks| <= |w'.tasks|
    requires forall t :: 0 <= t < |w'.tasks| ==> TaskSource(w, s, w', t) && OwnChange(w, s, w', t)
    ensures RetriedOk(w', p)
  {
    forall t | 0 <= t < |w'.tasks| && w'.tasks[t].run == p ensures !MayRetry(w'.tasks[t].pc) {
      assert TaskSource(w, s, w', t) && OwnChange(w, s, w', t);
      if t < |w.tasks| && ClaimsRun(w, s, p) { ClaimIsFirst(w, s, p); }
    }
  }

  /** Creating a retry ends the only ownership that could create it. */
  lemma NewRetry(w: World, s: Step, w': World, r: RunId)
    requires Owned(w) && Grows(w.runs, w'.runs) && |w.tasks| <= |w'.tasks|
    requires |w.runs| <= r < |w'.runs| && w'.runs[r].origin.AutoRetry? && Birth(w, s, w'.runs[r])
    requires s.task < |w'.tasks| && !MayRetry(w'.tasks[s.task].pc)
    requires forall t :: 0 <= t < |w'.tasks| ==> TaskSource(w, s, w', t) && OwnChange(w, s, w', t)
    ensures RetriedOk(w', w'.runs[r].origin.parent)
    ensures forall q :: 0 <= q < |w.runs| ==> w.runs[q].origin != w'.runs[r].origin
  {
    var p := w'.runs[r].origin.parent;
    assert OwnerOk(w, w.tasks[s.task]) && MayRetry(w.tasks[s.task].pc);
    forall t | 0 <= t < |w'.tasks| && w'.tasks[t].run == p ensures !MayRetry(w'.tasks[t].pc) {
      assert TaskSource(w, s, w', t) && OwnChange(w, s, w', t);
    }
    assert !RetriedOk(w, p);
    assert forall q :: 0 <= q < |w.runs| && w.runs[q].origin.AutoRetry? ==> RetriedOk(w, w.runs[q].origin.parent);
  }

  /** A step inserts at most one automatic retry, and its task is then past retrying. */
  lemma StepRetry(cfg: Config, w: World, s: Step, w': World, r: RunId)
    requires Next(cfg, w, s, w') && |w.runs| <= r < |w'.runs| && w'.runs[r].origin.AutoRetry?
    ensures r == |w.runs| && |w'.runs| == |w.runs| + 1
    ensures s.Advance? && s.task < |w'.tasks| && !MayRetry(w'.tasks[s.task].pc)
  {
    StepBirth(cfg, w, s, w', r);
  }

  lemma RetriesStep(cfg: Config, w: World, s: Step, w': World)
    requires Next(cfg, w, s, w') && Owned(w) && Grows(w.runs, w'.runs) && |w.tasks| <= |w'.tasks|
    requires forall t :: 0 <= t < |w'.tasks| ==> TaskSource(w, s, w', t) && OwnChange(w, s, w', t)
    ensures RetriesOk(w')
  {
    forall r | 0 <= r < |w'.runs| && w'.runs[r].origin.AutoRetry?
      ensures RetriedOk(w', w'.runs[r].origin.parent)
      ensures r >= |w.runs| ==> r == |w'.runs| - 1 && forall q :: 0 <= q < |w.runs| ==>
                w'.runs[q].origin != w'.runs[r].origin
    {
      if r < |w.runs| {
        assert RetriedOk(w, w.runs[r].origin.parent);
        RetriedStep(w, s, w', w.runs[r].origin.parent);
      } else {
        StepBirth(cfg, w, s, w', r);
        StepRetry(cfg, w, s, w', r);
        NewRetry(w, s, w', r);
      }
    }
    RetriesDistinct(w, w');
  }

  lemma RetriesDistinct(w: World, w': World)
    requires RetriesOk(w) && Grows(w.runs, w'.runs)
    requires forall r :: |w.runs| <= r < |w'.runs| && w'.runs[r].origin.AutoRetry? ==>
               r == |w'.runs| - 1 && forall q :: 0 <= q < |w.runs| ==> w'.runs[q].origin != w'.runs[r].origin
    ensures RetriedOnce(w'.runs)
  {
    forall r, q | 0 <= r < q < |w'.runs| && w'.runs[r].origin.AutoRetry?
      ensures w'.runs[q].origin != w'.runs[r].origin
    {
      if q < |w.runs| { assert w.runs[q].origin != w.runs[r].origin; }
    }
  }

  lemma ClaimRuns(cfg: Config, w: World, s: Step, w': World, r: RunId)
    requires Next(cfg, w, s, w') && ClaimsRun(w, s, r)
    ensures r < |w'.runs| && w'.runs[r].status == Running
  {}

  lemma OwnedStep(cfg: Config, w: World, s: Step, w': World)
    requires Next(cfg, w, s, w') && Owned(w) && !s.Reclaim?
    ensures Owned(w')
  {
    StepGrows(cfg, w, s, w');
    InFlightKnownStep(cfg, w, s, w');
    StepTasks(cfg, w, s, w');
    forall t | 0 <= t < |w'.tasks| ensures OwnChange(w, s, w', t) { StepOwn(cfg, w, s, w', t); }
    forall r | 0 <= r < |w.runs| ensures StatusChange(w, s, w', r) { StepStatus(cfg, w, s, w', r); }
    forall t | 0 <= t < |w'.tasks| ensures OwnerOk(w', w'.tasks[t]) {
      if ClaimsRun(w, s, w'.tasks[t].run) { ClaimRuns(cfg, w, s, w', w'.tasks[t].run); }
      OwnerStep(w, s, w', t);
    }
    ExclusiveStep(w, s, w');
    RetriesStep(cfg, w, s, w');
  }

  lemma {:induction false} OwnedAlways(cfg: Config, ws: seq<World>, ss: seq<Step>, i: nat)
    requires Behavior(cfg, ws, ss) && NoReclaims(ss) && i < |ws|
    ensures Owned(ws[i])
  {
    if i > 0 {
      OwnedAlways(cfg, ws, ss, i - 1);
      assert StepAt(cfg, ws, ss, i - 1);
      OwnedStep(cfg, ws[i - 1], ss[i - 1], ws[i]);
    }
  }

  /** Without reclaims a terminal status, once reached, is final. */
  lemma {:induction false} TerminalIsFinal(cfg: Config, ws: seq<World>, ss: seq<Step>, i: nat, k: nat, r: RunId)
    requires Behavior(cfg, ws, ss) && NoReclaims(ss) && i <= k < |ws|
    requires r < |ws[i].runs| && Terminal(ws[i].runs[r].status)
    ensures r < |ws[k].runs| && ws[k].runs[r].status == ws[i].runs[r].status
  {
    if i < k {
      TerminalIsFinal(cfg, ws, ss, i, k - 1, r);
      TerminalAt(cfg, ws, ss, k - 1, r);
    }
  }

  lemma TerminalAt(cfg: Config, ws: seq<World>, ss: seq<Step>, k: nat, r: RunId)
    requires Behavior(cfg, ws, ss) && NoReclaims(ss) && k < |ss| && r < |ws[k].runs| && Terminal(ws[k].runs[r].status)
    ensures r < |ws[k + 1].runs| && ws[k + 1].runs[r].status == ws[k].runs[r].status
  {
    OwnedAlways(cfg, ws, ss, k);
    assert StepAt(cfg, ws, ss, k);
    TerminalStep(cfg, ws[k], ss[k], ws[k + 1], r);
  }

  lemma TerminalStep(cfg: Config, w: World, s: Step, w': World, r: RunId)
    requires Next(cfg, w, s, w') && Owned(w) && r < |w.runs| && Terminal(w.runs[r].status)
    ensures r < |w'.runs| && w'.runs[r].status == w.runs[r].status
  {
    StepGrows(cfg, w, s, w');
    StepStatus(cfg, w, s, w', r);
    if s.Advance? { assert OwnerOk(w, w.tasks[s.task]); }
  }

  // ------------------------------------------------------- how long a chain gets

  /** max_retries allows one more attempt after this one. */
  ghost predicate MayFollow(cfg: Config, row: Run) {
    row.job in cfg.jobs && row.attempt <= cfg.jobs[row.job].maxRetries
  }

  ghost predicate RetryingOk(cfg: Config, w: World, task: Task) {
    && task.run < |w.runs|
    && (task.pc.Retrying? || task.pc.LateRetry? ==> MayFollow(cfg, w.runs[task.run]))
  }

  ghost predicate CountOk(cfg: Config, runs: seq<Run>, r: RunId)
    requires r < |runs|
  {
    match runs[r].origin
    case AutoRetry(p) =>
      && p < r && runs[r].job == runs[p].job && runs[r].attempt == runs[p].attempt + 1
      && runs[r].job in cfg.jobs && runs[p].attempt <= cfg.jobs[runs[r].job].maxRetries
    case ApiRetry(p) => p < r && runs[r].job == runs[p].job && runs[r].attempt == runs[p].attempt + 1
    case _ => runs[r].attempt == 1
  }

  ghost predicate CountsOk(cfg: Config, w: World) {
    && InFlightKnown(w)
    && (forall t :: 0 <= t < |w.tasks| ==> RetryingOk(cfg, w, w.tasks[t]))
    && (forall r :: 0 <= r < |w.runs| ==> CountOk(cfg, w.runs, r))
  }

  lemma AdvanceRetrying(cfg: Config, w: World, t: TaskId, now: real)
    requires t < |w.tasks| && RetryingOk(cfg, w, w.tasks[t]) && w.runs[w.tasks[t].run].attempt >= 1
    ensures var w' := AdvanceTask(cfg, w, t, now);
            && |w'.tasks| == |w.tasks|
            && (w'.tasks[t].pc.Retrying? || w'.tasks[t].pc.LateRetry? ==> MayFollow(cfg, w.runs[w.tasks[t].run]))
  {}

  lemma RetryingStep(cfg: Config, w: World, s: Step, w': World, t: TaskId)
    requires Next(cfg, w, s, w') && CountsOk(cfg, w) && Grows(w.runs, w'.runs) && t < |w'.tasks|
    ensures RetryingOk(cfg, w', w'.tasks[t])
  {
    StepTasks(cfg, w, s, w');
    assert TaskSource(w, s, w', t);
    if t < |w.tasks| {
      assert RetryingOk(cfg, w, w.tasks[t]);
      assert CountOk(cfg, w.runs, w.tasks[t].run);
      if s.Advance? && s.task == t { AdvanceRetrying(cfg, w, t, s.now); }
    } else if s.Abort? {
      assert RetryingOk(cfg, w, w.tasks[s.task]);
    } else {
      assert Known(w.runs, w.stream[s.msg].run);
    }
  }

  lemma CountsStep(cfg: Config, w: World, s: Step, w': World)
    requires Next(cfg, w, s, w') && CountsOk(cfg, w)
    ensures CountsOk(cfg, w')
  {
    StepGrows(cfg, w, s, w');
    InFlightKnownStep(cfg, w, s, w');
    forall t | 0 <= t < |w'.tasks| ensures RetryingOk(cfg, w', w'.tasks[t]) { RetryingStep(cfg, w, s, w', t); }
    forall r | 0 <= r < |w'.runs| ensures CountOk(cfg, w'.runs, r) {
      if r < |w.runs| {
        assert CountOk(cfg, w.runs, r);
      } else {
        StepBirth(cfg, w, s, w', r);
        if s.Advance? { assert RetryingOk(cfg, w, w.tasks[s.task]); }
      }
    }
  }

  lemma {:induction false} CountsAlways(cfg: Config, ws: seq<World>, ss: seq<Step>, i: nat)
    requires Behavior(cfg, ws, ss) && i < |ws|
    ensures CountsOk(cfg, ws[i])
  {
    if i > 0 {
      CountsAlways(cfg, ws, ss, i - 1);
      assert StepAt(cfg, ws, ss, i - 1);
      CountsStep(cfg, ws[i - 1], ss[i - 1], ws[i]);
    }
  }

  /** The runs of a retry chain, from its first attempt to `r`. */
  ghost function Chain(runs: seq<Run>, r: RunId): seq<RunId>
    requires r < |runs|
  {
    match runs[r].origin
    case AutoRetry(p) => if p < r then Chain(runs, p) + [r] else [r]
    case _ => [r]
  }

  ghost predicate NoApiRetry(runs: seq<Run>) {
    forall r :: 0 <= r < |runs| ==> !runs[r].origin.ApiRetry?
  }

  /** The backoff delays between the attempts of the chain, added up. */
  ghost function ChainBackoff(cfg: Config, runs: seq<Run>, r: RunId): int
    requires r < |runs|
  {
    match runs[r].origin
    case AutoRetry(p) =>
      if p < r then ChainBackoff(cfg, runs, p) + BackoffSeconds(runs[p].attempt, BackoffBase(cfg, runs[p].job)) else 0
    case _ => 0
  }

  /** Attempts count 1, 2, ..., k with k <= max_retries + 1, all of one job. */
  ghost predicate ChainCounts(cfg: Config, runs: seq<Run>, r: RunId)
    requires r < |runs|
  {
    var c := Chain(runs, r);
    && |c| == runs[r].attempt && 1 <= runs[r].attempt
    && (runs[r].attempt > 1 ==> runs[r].job in cfg.jobs && runs[r].attempt <= cfg.jobs[runs[r].job].maxRetries + 1)
    && (forall i :: 0 <= i < |c| ==> c[i] < |runs| && runs[c[i]].attempt == i + 1 && runs[c[i]].job == runs[r].job)
  }

  lemma {:induction false} ChainShape(cfg: Config, w: World, r: RunId)
    requires CountsOk(cfg, w) && NoApiRetry(w.runs) && r < |w.runs|
    ensures ChainCounts(cfg, w.runs, r)
    ensures ChainBackoff(cfg, w.runs, r) == TotalBackoff(w.runs[r].attempt - 1, BackoffBase(cfg, w.runs[r].job))
  {
    assert CountOk(cfg, w.runs, r);
    match w.runs[r].origin
    case AutoRetry(p) => ChainShape(cfg, w, p);
    case _ =>
  }

  lemma {:induction false} ChainBackoffBounded(cfg: Config, w: World, r: RunId)
    requires CountsOk(cfg, w) && NoApiRetry(w.runs) && r < |w.runs|
    ensures w.runs[r].attempt >= 1
    ensures ChainBackoff(cfg, w.runs, r) <= BackoffBase(cfg, w.runs[r].job) * (Pow2(w.runs[r].attempt - 1) - 1)
    ensures ChainBackoff(cfg, w.runs, r) <= (w.runs[r].attempt - 1) * 3600
  {
    ChainShape(cfg, w, r);
    TotalBackoffBounded(w.runs[r].attempt - 1, BackoffBase(cfg, w.runs[r].job));
  }

  /**
   With no reclaims and no API retries each first attempt starts a linear chain: no run is
   retried twice, attempts count 1, 2, ..., k with k <= max_retries + 1, and the delays add
   up to at most base * (2^(k-1) - 1) and at most k - 1 caps.
   */
  lemma {:induction false} RetryChains(cfg: Config, ws: seq<World>, ss: seq<Step>, i: nat, r: RunId)
    requires Behavior(cfg, ws, ss) && NoReclaims(ss) && i < |ws| && r < |ws[i].runs| && NoApiRetry(ws[i].runs)
    ensures RetriedOnce(ws[i].runs) && ChainCounts(cfg, ws[i].runs, r)
    ensures var row := ws[i].runs[r];
            row.job in cfg.jobs ==>
              ChainBackoff(cfg, ws[i].runs, r) <= cfg.jobs[row.job].backoffSec * (Pow2(row.attempt - 1) - 1)
    ensures ChainBackoff(cfg, ws[i].runs, r) <= (ws[i].runs[r].attempt - 1) * 3600
  {
    OwnedAlways(cfg, ws, ss, i);
    CountsAlways(cfg, ws, ss, i);
    ChainShape(cfg, ws[i], r);
    ChainBackoffBounded(cfg, ws[i], r);
  }
}
