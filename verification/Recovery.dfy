/**
 Which runs can still finish without help from a user, and which are lost for good.

 A RUNNING run can finish if and only if something in the system still refers to it; reclaims
 that only take entries of crashed workers keep that so, and one that does not can break it.
 */
module Recovery {
  import opened Runs
  import opened Store
  import opened Protocol
  import opened Lifecycle
  import opened NoLoss
  import Delayed
  import Trigger

  /** Steps that schedulers and workers take on their own, when nothing crashes. */
  ghost predicate Automatic(s: Step) {
    || s.ScheduleTick? || s.RequeueOrphans? || s.PromoteDelayed? || s.Publish?
    || s.Deliver? || s.Reclaim? || s.Execute? || s.Advance?
  }

  ghost predicate Continuation(cfg: Config, ws: seq<World>, ss: seq<Step>, safe: bool) {
    && |ws| == |ss| + 1
    && (forall i :: 0 <= i < |ss| ==> StepAt(cfg, ws, ss, i))
    && (forall i :: 0 <= i < |ss| ==> Automatic(ss[i]) && (safe ==> SafeReclaim(ws[i], ss[i])))
  }

  ghost predicate Finishes(cfg: Config, w: World, r: RunId, safe: bool, ws: seq<World>, ss: seq<Step>) {
    && Continuation(cfg, ws, ss, safe) && ws[0] == w
    && r < |ws[|ss|].runs| && Terminal(ws[|ss|].runs[r].status)
  }

  /** Some continuation without user or crash steps brings `r` to a terminal status. */
  ghost predicate CanFinish(cfg: Config, w: World, r: RunId, safe: bool) {
    exists ws, ss :: Finishes(cfg, w, r, safe, ws, ss)
  }

  lemma FinishedAlready(cfg: Config, w: World, r: RunId, safe: bool)
    requires r < |w.runs| && Terminal(w.runs[r].status)
    ensures CanFinish(cfg, w, r, safe)
  {
    assert Finishes(cfg, w, r, safe, [w], []);
  }

  lemma FinishAfter(cfg: Config, w: World, s: Step, r: RunId, safe: bool)
    requires Enabled(cfg, w, s) && Automatic(s) && (safe ==> SafeReclaim(w, s))
    requires CanFinish(cfg, Apply(cfg, w, s), r, safe)
    ensures CanFinish(cfg, w, r, safe)
  {
    var ws, ss :| Finishes(cfg, Apply(cfg, w, s), r, safe, ws, ss);
    PrependStep(cfg, w, s, r, safe, ws, ss);
  }

  lemma PrependStep(cfg: Config, w: World, s: Step, r: RunId, safe: bool, ws: seq<World>, ss: seq<Step>)
    requires Automatic(s) && (safe ==> SafeReclaim(w, s)) && |ws| > 0 && Next(cfg, w, s, ws[0])
    requires Finishes(cfg, ws[0], r, safe, ws, ss)
    ensures Finishes(cfg, w, r, safe, [w] + ws, [s] + ss)
  {
    var ws', ss' := [w] + ws, [s] + ss;
    forall i | 0 <= i < |ss'|
      ensures StepAt(cfg, ws', ss', i) && Automatic(ss'[i]) && (safe ==> SafeReclaim(ws'[i], ss'[i]))
    {
      if i > 0 {
        assert StepAt(cfg, ws, ss, i - 1);
        assert ws'[i] == ws[i - 1] && ss'[i] == ss[i - 1] && ws'[i + 1] == ws[i];
      }
    }
  }

  // ------------------------------------------------------- one task carries its run home

  /** A live task that has claimed RUNNING run `r` can finish it. */
  lemma ClaimedFinishes(cfg: Config, w: World, t: TaskId, r: RunId, safe: bool)
    requires Live(w, t) && w.tasks[t].run == r < |w.runs| && w.runs[r].status == Running && PreFinish(w.tasks[t].pc)
    ensures CanFinish(cfg, w, r, safe)
    decreases match w.tasks[t].pc
              case Executing => 4 case Checking(_) => 3 case Retrying(_) => 2 case Delaying(_, _) => 1 case _ => 0
  {
    var s := if w.tasks[t].pc.Executing? then Execute(t, Succeeded) else Advance(t, 0.0);
    var w' := Apply(cfg, w, s);
    if w.tasks[t].pc.Finishing? {
      FinishedAlready(cfg, w', r, safe);
    } else {
      ClaimedFinishes(cfg, w', t, r, safe);
    }
    FinishAfter(cfg, w, s, r, safe);
  }

  /** So can a live task that is about to claim it. */
  lemma ClaimerFinishes(cfg: Config, w: World, t: TaskId, r: RunId, safe: bool)
    requires Live(w, t) && w.tasks[t].run == r < |w.runs| && w.tasks[t].pc == Start
    requires Claimable(w.runs[r].status, w.tasks[t].allowRunning)
    ensures CanFinish(cfg, w, r, safe)
  {
    var s := Advance(t, 0.0);
    ClaimedFinishes(cfg, Apply(cfg, w, s), t, r, safe);
    FinishAfter(cfg, w, s, r, safe);
  }

  lemma MaxWorker(s: set<WorkerId>) returns (k: WorkerId)
    ensures forall x :: x in s ==> x <= k
    decreases s
  {
    if s == {} {
      k := 0;
    } else {
      var y :| y in s;
      k := MaxWorker(s - {y});
      if k < y { k := y; }
      assert forall x :: x in s ==> x == y || x in s - {y};
    }
  }

  /** A worker that has not crashed can always be started. */
  lemma FreshWorker(w: World) returns (k: WorkerId)
    ensures k !in w.dead
  {
    var m := MaxWorker(w.dead);
    k := m + 1;
  }

  /** An entry of an active run in the pending list: reclaim it. */
  lemma HeldFinishes(cfg: Config, w: World, m: MsgId, r: RunId, safe: bool)
    requires m < |w.stream| && w.stream[m].run == r < |w.runs| && Active(w.runs[r].status)
    requires w.stream[m].state.Held?
    requires safe ==> w.stream[m].state.task < |w.tasks| && !Live(w, w.stream[m].state.task)
    ensures CanFinish(cfg, w, r, safe)
  {
    var k := FreshWorker(w);
    var s := Reclaim(m, k);
    ClaimerFinishes(cfg, Apply(cfg, w, s), |w.tasks|, r, safe);
    FinishAfter(cfg, w, s, r, safe);
  }

  /** An unread entry: deliver it, and reclaim it if the run is RUNNING already. */
  lemma UnreadFinishes(cfg: Config, w: World, m: MsgId, r: RunId, safe: bool)
    requires m < |w.stream| && w.stream[m].run == r < |w.runs| && Active(w.runs[r].status)
    requires w.stream[m].state == Unread
    requires safe ==> w.runs[r].status != Running
    ensures CanFinish(cfg, w, r, safe)
  {
    var k := FreshWorker(w);
    var s := Deliver(m, k);
    if w.runs[r].status == Running {
      HeldFinishes(cfg, Apply(cfg, w, s), m, r, safe);
    } else {
      ClaimerFinishes(cfg, Apply(cfg, w, s), |w.tasks|, r, safe);
    }
    FinishAfter(cfg, w, s, r, safe);
  }

  lemma UnpublishedFinishes(cfg: Config, w: World, r: RunId, safe: bool)
    requires r in w.outbox && r < |w.runs| && Active(w.runs[r].status) && (safe ==> w.runs[r].status != Running)
    ensures CanFinish(cfg, w, r, safe)
  {
    UnreadFinishes(cfg, Apply(cfg, w, Publish(r)), |w.stream|, r, safe);
    FinishAfter(cfg, w, Publish(r), r, safe);
  }

  /** A QUEUED run needs nothing at all: the next orphan scan picks it up. */
  lemma QueuedFinishes(cfg: Config, w: World, r: RunId, safe: bool)
    requires r < |w.runs| && w.runs[r].status == Queued
    ensures CanFinish(cfg, w, r, safe)
  {
    var s := RequeueOrphans(w.runs[r].createdAt + ORPHAN_AFTER + 1.0);
    assert r in OrphanIds(w.runs, s.now);
    UnpublishedFinishes(cfg, Apply(cfg, w, s), r, safe);
    FinishAfter(cfg, w, s, r, safe);
  }

  /**
   From every state reachable with reclaims from crashed workers only, every QUEUED or RUNNING
   run has a continuation, by schedulers and workers alone and under the same restriction on
   reclaims, that brings it to a terminal status.
   */
  lemma EveryDispatchedRunCanFinish(cfg: Config, ws: seq<World>, ss: seq<Step>, i: nat, r: RunId)
    requires Behavior(cfg, ws, ss) && i < |ws|
    requires forall k :: 0 <= k < |ss| ==> SafeReclaim(ws[k], ss[k])
    requires r < |ws[i].runs| && Dispatched(ws[i].runs[r].status)
    ensures CanFinish(cfg, ws[i], r, true)
  {
    NoRunIsLost(cfg, ws, ss, i);
    DispatchedFinishes(cfg, ws[i], r);
  }

  lemma DispatchedFinishes(cfg: Config, w: World, r: RunId)
    requires NothingLost(w) && r < |w.runs| && Dispatched(w.runs[r].status)
    ensures CanFinish(cfg, w, r, true)
  {
    if w.runs[r].status == Queued {
      QueuedFinishes(cfg, w, r, true);
    } else {
      var m: MsgId :| Attended(w, r, m);
      var t := w.stream[m].state.task;
      assert EntryOk(w, m) && TaskKnown(w.runs, w.stream, w.tasks[t]);
      if !Live(w, t) { HeldFinishes(cfg, w, m, r, true); }
      else if PreFinish(w.tasks[t].pc) { ClaimedFinishes(cfg, w, t, r, true); }
      else { ClaimerFinishes(cfg, w, t, r, true); }
    }
  }

  // ------------------------------------------------------- exactly when a RUNNING run can finish

  /** A live task that will finish run `r`, claim it, or put it back on the stream or in the delayed set. */
  ghost predicate Carries(w: World, t: TaskId, r: RunId) {
    && Live(w, t)
    && (|| (w.tasks[t].run == r && (PreFinish(w.tasks[t].pc) || (w.tasks[t].pc == Start && w.tasks[t].allowRunning)))
        || ((w.tasks[t].pc.Sending? || w.tasks[t].pc.Delaying?) && w.tasks[t].pc.next == r))
  }

  ghost predicate Pointed(w: World, m: MsgId, r: RunId) {
    m < |w.stream| && w.stream[m].run == r && (w.stream[m].state.Unread? || w.stream[m].state.Held?)
  }

  /** Something in the system still refers to run `r`. */
  ghost predicate Recoverable(w: World, r: RunId) {
    || r in w.outbox
    || r in w.delayed
    || (exists m :: Pointed(w, m, r))
    || (exists t :: Carries(w, t, r))
  }

  /** If nothing refers to a RUNNING run, no step but a user's cancel changes that. */
  lemma LostStep(cfg: Config, w: World, s: Step, w': World, r: RunId)
    requires Next(cfg, w, s, w') && r < |w.runs| && w.runs[r].status == Running && !Recoverable(w, r)
    requires s != CancelRun(r)
    ensures r < |w'.runs| && w'.runs[r].status == Running && !Recoverable(w', r)
  {
    StepGrows(cfg, w, s, w');
    LostStatus(cfg, w, s, w', r);
    StepEntries(cfg, w, s, w');
    StepEntryChange(cfg, w, s, w');
    StepOutbox(cfg, w, s, w');
    StepDelayed(cfg, w, s, w');
    LostReferences(w, s, w', r);
    forall t ensures !Carries(w', t, r) {
      if Carries(w', t, r) { LostTasks(cfg, w, s, w', r, t); }
    }
  }

  lemma LostStatus(cfg: Config, w: World, s: Step, w': World, r: RunId)
    requires Next(cfg, w, s, w') && r < |w.runs| && w.runs[r].status == Running && !Recoverable(w, r)
    requires s != CancelRun(r) && Grows(w.runs, w'.runs)
    ensures w'.runs[r].status == Running
  {
    if s.Advance? {
      assert !Carries(w, s.task, r);
      if w.tasks[s.task].pc.LateFanOut? {}
    } else if s.TriggerJob? {
      var plan := Trigger.TriggerPlan(cfg.edges, w.runs, s.job, s.now);
      if plan.Plan? { TriggerExtends(cfg, w.runs, s.job, s.now, plan); }
    }
  }

  lemma LostReferences(w: World, s: Step, w': World, r: RunId)
    requires !Recoverable(w, r) && r < |w.runs| <= |w'.runs|
    requires w.runs[r].status == Running && w'.runs[r].status == Running
    requires |w.stream| <= |w'.stream| && |w.tasks| <= |w'.tasks| && StreamExtends(w.stream, w'.stream)
    requires forall m :: 0 <= m < |w.stream| ==> EntryChange(w, s, w', m)
    requires forall m :: |w.stream| <= m < |w'.stream| ==> EntrySource(w, s, w'.stream[m])
    requires forall k :: k in w'.outbox ==> k in w.outbox || OutboxSource(w, s, w', k)
    requires s.Advance? ==> Live(w, s.task)
    requires forall k :: k in w'.delayed ==>
               k in w.delayed || (s.Advance? && w.tasks[s.task].pc.Delaying? && k == w.tasks[s.task].pc.next)
    ensures r !in w'.outbox && r !in w'.delayed && !exists m :: Pointed(w', m, r)
  {
    if s.Advance? { assert !Carries(w, s.task, r); }
    forall m: MsgId ensures !Pointed(w', m, r) {
      assert !Pointed(w, m, r);
      if m < |w.stream| { assert EntryChange(w, s, w', m); }
      else if m < |w'.stream| { assert EntrySource(w, s, w'.stream[m]); }
    }
  }

  lemma LostTasks(cfg: Config, w: World, s: Step, w': World, r: RunId, t: TaskId)
    requires Next(cfg, w, s, w') && r < |w.runs| && w.runs[r].status == Running && !Recoverable(w, r)
    ensures !Carries(w', t, r)
  {
    StepTasks(cfg, w, s, w');
    if t < |w.tasks| {
      assert !Carries(w, t, r);
      StepTask(cfg, w, s, w', t);
      LostTask(cfg, w, s, w', r, t);
    } else if t < |w'.tasks| {
      assert TaskSource(w, s, w', t);
      if s.Reclaim? || s.Deliver? { assert !Pointed(w, s.msg, r); }
    }
  }

  lemma LostTask(cfg: Config, w: World, s: Step, w': World, r: RunId, t: TaskId)
    requires t < |w.tasks| && TaskStep(cfg, w, s, w', t) && !Carries(w, t, r) && (s.Advance? ==> Live(w, s.task))
    requires r < |w.runs| && w.runs[r].status == Running
    ensures !Carries(w', t, r)
  {
    if s.Advance? && s.task == t && w'.tasks[t] != w.tasks[t] { LostAdvance(cfg, w, t, s.now, r); }
  }

  lemma LostAdvance(cfg: Config, w: World, t: TaskId, now: real, r: RunId)
    requires Live(w, t) && w.tasks[t].run < |w.runs| && w.tasks[t].pc != Executing && w.tasks[t].pc != Done
    requires r < |w.runs| && w.runs[r].status == Running && !Carries(w, t, r)
    ensures !Carries(AdvanceTask(cfg, w, t, now), t, r)
  {}

  /** A lost run stays RUNNING through every continuation in which no user cancels it. */
  lemma {:induction false} LostForever(cfg: Config, ws: seq<World>, ss: seq<Step>, n: nat, r: RunId)
    requires |ws| == |ss| + 1 && n <= |ss|
    requires forall i :: 0 <= i < |ss| ==> StepAt(cfg, ws, ss, i)
    requires forall i :: 0 <= i < |ss| ==> ss[i] != CancelRun(r)
    requires r < |ws[0].runs| && ws[0].runs[r].status == Running && !Recoverable(ws[0], r)
    ensures r < |ws[n].runs| && ws[n].runs[r].status == Running && !Recoverable(ws[n], r)
  {
    if n > 0 {
      LostForever(cfg, ws, ss, n - 1, r);
      assert StepAt(cfg, ws, ss, n - 1);
      LostStep(cfg, ws[n - 1], ss[n - 1], ws[n], r);
    }
  }

  lemma DelayedFinishes(cfg: Config, w: World, r: RunId)
    requires r in w.delayed && r < |w.runs| && w.runs[r].status == Running
    ensures CanFinish(cfg, w, r, false)
  {
    var now := w.delayed[r];
    var due := Delayed.SortedReplyExists(w.delayed, now);
    var s := PromoteDelayed(now, due);
    var i :| 0 <= i < |due| && due[i] == r;
    UnreadFinishes(cfg, Apply(cfg, w, s), |w.stream| + i, r, false);
    FinishAfter(cfg, w, s, r, false);
  }

  lemma CarriedFinishes(cfg: Config, w: World, t: TaskId, r: RunId)
    requires InFlightKnown(w) && Carries(w, t, r) && r < |w.runs| && w.runs[r].status == Running
    ensures CanFinish(cfg, w, r, false)
  {
    assert TaskKnown(w.runs, w.stream, w.tasks[t]);
    var pc := w.tasks[t].pc;
    if w.tasks[t].run == r && PreFinish(pc) {
      ClaimedFinishes(cfg, w, t, r, false);
    } else if pc == Start {
      ClaimerFinishes(cfg, w, t, r, false);
    } else {
      var s := Advance(t, 0.0);
      var w' := Apply(cfg, w, s);
      if pc.Sending? { UnreadFinishes(cfg, w', |w.stream|, r, false); } else { DelayedFinishes(cfg, w', r); }
      FinishAfter(cfg, w, s, r, false);
    }
  }

  /**
   A RUNNING run can reach a terminal status without a user if and only if an unpublished id,
   a delayed member, an unread or pending entry, or a live task still refers to it.
   */
  lemma CanFinishIffRecoverable(cfg: Config, w: World, r: RunId)
    requires InFlightKnown(w) && r < |w.runs| && w.runs[r].status == Running
    ensures CanFinish(cfg, w, r, false) <==> Recoverable(w, r)
  {
    if Recoverable(w, r) {
      if r in w.outbox { UnpublishedFinishes(cfg, w, r, false); }
      else if r in w.delayed { DelayedFinishes(cfg, w, r); }
      else if m: MsgId :| Pointed(w, m, r) {
        if w.stream[m].state.Held? { HeldFinishes(cfg, w, m, r, false); } else { UnreadFinishes(cfg, w, m, r, false); }
      } else {
        var t: TaskId :| Carries(w, t, r);
        CarriedFinishes(cfg, w, t, r);
      }
    } else if CanFinish(cfg, w, r, false) {
      var ws, ss :| Finishes(cfg, w, r, false, ws, ss);
      LostForever(cfg, ws, ss, |ss|, r);
      assert false;
    }
  }

  // ------------------------------------------------------- a reclaim from a live worker can lose a run

  const ONE_JOB := Config(map[0 := Job(true, false, 0, 0)], [])

  function OneRun(status: Status): seq<Run> {
    [Run(0, Manual, status, 1, 0.0)]
  }

  /** Worker 1 took entry 0 and is at `first`; worker 2 reclaimed it and is at `second`. */
  function TwoHolders(status: Status, state: EntryState, first: Pc, second: Pc, dead: set<WorkerId>): World {
    World(OneRun(status), [Entry(0, state)], map[], multiset{},
          [Task(1, 0, 0, false, first), Task(2, 0, 0, true, second)], dead)
  }

  function LostWorlds(): seq<World> {
    [INIT,
     World(OneRun(Queued), [], map[], multiset{0}, [], {}),
     World(OneRun(Queued), [Entry(0, Unread)], map[], multiset{}, [], {}),
     World(OneRun(Queued), [Entry(0, Held(0))], map[], multiset{}, [Task(1, 0, 0, false, Start)], {}),
     TwoHolders(Queued, Held(1), Start, Start, {}),
     TwoHolders(Running, Held(1), Start, Executing, {}),
     TwoHolders(Running, Held(1), Acking, Executing, {}),
     TwoHolders(Running, Acked, Deleting, Executing, {}),
     TwoHolders(Running, Acked, Deleting, Executing, {2})]
  }

  function LostSteps(): seq<Step> {
    [TriggerJob(0, 0.0), Publish(0), Deliver(0, 1), Reclaim(0, 2), Advance(1, 0.0), Advance(0, 0.0),
     Advance(0, 0.0), Crash(2)]
  }

  /** Triggering a job without dependencies. */
  lemma {:induction false} TriggerLeaf(cfg: Config, w: World, job: JobId, now: real)
    requires job in cfg.jobs && Deps(cfg.edges, job) == []
    ensures Next(cfg, w, TriggerJob(job, now),
                 w.(runs := w.runs + [Run(job, Manual, Queued, 1, now)], outbox := w.outbox + multiset{|w.runs|}))
  {
    assert Trigger.TriggerPlan(cfg.edges, w.runs, job, now).publish == [|w.runs|];
    assert multiset([|w.runs|]) == multiset{|w.runs|};
  }

  lemma LostTrigger()
    ensures Next(ONE_JOB, LostWorlds()[0], LostSteps()[0], LostWorlds()[1])
  {
    assert Deps([], 0) == [];
    TriggerLeaf(ONE_JOB, INIT, 0, 0.0);
  }

  lemma LostDispatch()
    ensures forall i :: 1 <= i < 4 ==> Next(ONE_JOB, LostWorlds()[i], LostSteps()[i], LostWorlds()[i + 1])
  {
    var ws, ss := LostWorlds(), LostSteps();
    assert Next(ONE_JOB, ws[1], ss[1], ws[2]);
    assert Next(ONE_JOB, ws[2], ss[2], ws[3]);
    assert Next(ONE_JOB, ws[3], ss[3], ws[4]);
  }

  lemma LostExecution()
    ensures forall i :: 4 <= i < 8 ==> Next(ONE_JOB, LostWorlds()[i], LostSteps()[i], LostWorlds()[i + 1])
  {
    var ws, ss := LostWorlds(), LostSteps();
    assert Next(ONE_JOB, ws[4], ss[4], ws[5]);
    assert Next(ONE_JOB, ws[5], ss[5], ws[6]);
    assert Next(ONE_JOB, ws[6], ss[6], ws[7]);
    assert Next(ONE_JOB, ws[7], ss[7], ws[8]);
  }

  /**
   The holder of an entry is slow to start; another worker reclaims the entry and claims the
   run; the first one's claim is then a no-op, so it acks the entry; the second one crashes.
   The run is RUNNING and lost for good, although each of these steps is one the code takes.
   */
  lemma LostRunReachable()
    ensures Behavior(ONE_JOB, LostWorlds(), LostSteps())
    ensures LostWorlds()[8].runs[0].status == Running && !CanFinish(ONE_JOB, LostWorlds()[8], 0, false)
  {
    LostTrigger();
    LostDispatch();
    LostExecution();
    var w := LostWorlds()[8];
    NothingInFlightIsPending(ONE_JOB, LostWorlds(), LostSteps(), 8);
    assert !Recoverable(w, 0);
    CanFinishIffRecoverable(ONE_JOB, w, 0);
  }
}
