/**
 Where the guarantees end: behaviours that reach the bounds and break the promises whose
 hypotheses they violate.
 */
module Boundaries {
  import opened Runs
  import opened Protocol
  import opened Claims
  import opened NoLoss
  import opened Recovery
  import opened Lifecycle
  import DependencySafety
  import Trigger

  /** A behaviour followed by one more step. */
  lemma Extend(cfg: Config, ws: seq<World>, ss: seq<Step>, s: Step, w': World)
    requires Behavior(cfg, ws, ss) && Next(cfg, ws[|ss|], s, w')
    ensures Behavior(cfg, ws + [w'], ss + [s])
  {
    var ws', ss' := ws + [w'], ss + [s];
    forall i | 0 <= i < |ss'| ensures StepAt(cfg, ws', ss', i) {
      if i < |ss| { assert StepAt(cfg, ws, ss, i); }
    }
  }

  lemma {:induction false} CountsPrefix(ws: seq<World>, ss: seq<Step>, w': World, s: Step, n: nat, r: RunId)
    requires n <= |ss| <= |ws|
    ensures ClaimCount(ws + [w'], ss + [s], n, r) == ClaimCount(ws, ss, n, r)
    ensures ReclaimCount(ws + [w'], ss + [s], n, r) == ReclaimCount(ws, ss, n, r)
  {
    if n > 0 { CountsPrefix(ws, ss, w', s, n - 1, r); }
  }

  /** Whether the step claims run 0, and whether it reclaims its entry. */
  ghost predicate Counts(w: World, s: Step, claims: int, reclaims: int) {
    && claims == (if ClaimsRun(w, s, 0) then 1 else 0)
    && reclaims == (if ReclaimsRun(w, s, 0) then 1 else 0)
  }

  lemma {:induction false} CountsExtend(ws: seq<World>, ss: seq<Step>, w': World, s: Step, claims: int, reclaims: int)
    requires |ws| == |ss| + 1 && Counts(ws[|ss|], s, claims, reclaims)
    ensures ClaimCount(ws + [w'], ss + [s], |ss| + 1, 0) == ClaimCount(ws, ss, |ss|, 0) + claims
    ensures ReclaimCount(ws + [w'], ss + [s], |ss| + 1, 0) == ReclaimCount(ws, ss, |ss|, 0) + reclaims
  {
    CountsPrefix(ws, ss, w', s, |ss|, 0);
    assert (ws + [w'])[|ss|] == ws[|ss|];
  }

  // ------------------------------------------------------- any number of workers on one run

  /** Workers 1..n + 1, all alive, are all executing run 0. */
  function Crowd(n: nat): (w: World)
    ensures forall t :: 0 <= t <= n ==> Live(w, t) && w.tasks[t].run == 0 && w.tasks[t].pc == Executing
  {
    World(OneRun(Running), [Entry(0, Held(n))], map[], multiset{},
          seq(n + 1, i requires 0 <= i => Task(i + 1, 0, 0, i > 0, Executing)), {})
  }

  function Joining(n: nat): World {
    World(OneRun(Running), [Entry(0, Held(n + 1))], map[], multiset{},
          seq(n + 1, i requires 0 <= i => Task(i + 1, 0, 0, i > 0, Executing)) + [Task(n + 2, 0, 0, true, Start)], {})
  }

  lemma FirstClaims()
    ensures Next(ONE_JOB, LostWorlds()[3], Advance(0, 0.0), Crowd(0))
    ensures ClaimsRun(LostWorlds()[3], Advance(0, 0.0), 0)
  {
    var w := Apply(ONE_JOB, LostWorlds()[3], Advance(0, 0.0));
    assert w.tasks == Crowd(0).tasks;
    assert w.runs == Crowd(0).runs;
  }

  const FIRST_WORLDS := LostWorlds()[..4] + [Crowd(0)]
  const FIRST_STEPS := LostSteps()[..3] + [Advance(0, 0.0)]

  lemma FirstWorker()
    ensures Behavior(ONE_JOB, FIRST_WORLDS, FIRST_STEPS)
  {
    LostTrigger();
    LostDispatch();
    FirstClaims();
    var ws, ss := LostWorlds(), LostSteps();
    assert forall i :: 0 <= i < 3 ==> StepAt(ONE_JOB, ws, ss, i);
  }

  lemma FirstCounts()
    ensures ClaimCount(FIRST_WORLDS, FIRST_STEPS, 4, 0) == 1 && ReclaimCount(FIRST_WORLDS, FIRST_STEPS, 4, 0) == 0
  {
    FirstWorker();
    FirstClaims();
    NoReclaimCount(FIRST_WORLDS, FIRST_STEPS, 4, 0);
    ClaimAccounting(ONE_JOB, FIRST_WORLDS, FIRST_STEPS, 4, 0);
    assert ClaimsRun(FIRST_WORLDS[3], FIRST_STEPS[3], 0);
  }

  lemma NextWorker(n: nat)
    ensures Next(ONE_JOB, Crowd(n), Reclaim(0, n + 2), Joining(n))
    ensures Next(ONE_JOB, Joining(n), Advance(n + 1, 0.0), Crowd(n + 1))
  {
    assert Apply(ONE_JOB, Crowd(n), Reclaim(0, n + 2)).tasks == Joining(n).tasks;
    var w := Apply(ONE_JOB, Joining(n), Advance(n + 1, 0.0));
    assert w.tasks == Crowd(n + 1).tasks;
    assert w.runs == Crowd(n + 1).runs;
  }

  lemma NextWorkerCounts(n: nat)
    ensures Counts(Crowd(n), Reclaim(0, n + 2), 0, 1) && Counts(Joining(n), Advance(n + 1, 0.0), 1, 0)
  {}

  /** After a behaviour that ends in `Crowd(0)`, n more workers reclaim the entry and claim the run. */
  function JoinWorlds(ws: seq<World>, n: nat): (r: seq<World>)
    ensures |r| == |ws| + 2 * n && (n > 0 ==> r[|r| - 1] == Crowd(n))
  {
    if n == 0 then ws else JoinWorlds(ws, n - 1) + [Joining(n - 1)] + [Crowd(n)]
  }

  function JoinSteps(ss: seq<Step>, n: nat): (r: seq<Step>)
    ensures |r| == |ss| + 2 * n
  {
    if n == 0 then ss else JoinSteps(ss, n - 1) + [Reclaim(0, n + 1)] + [Advance(n, 0.0)]
  }

  lemma CrowdExtends(ws: seq<World>, ss: seq<Step>, n: nat)
    requires Behavior(ONE_JOB, ws, ss) && ws[|ss|] == Crowd(n)
    ensures Behavior(ONE_JOB, ws + [Joining(n)] + [Crowd(n + 1)], ss + [Reclaim(0, n + 2)] + [Advance(n + 1, 0.0)])
  {
    NextWorker(n);
    Extend(ONE_JOB, ws, ss, Reclaim(0, n + 2), Joining(n));
    Extend(ONE_JOB, ws + [Joining(n)], ss + [Reclaim(0, n + 2)], Advance(n + 1, 0.0), Crowd(n + 1));
  }

  lemma {:induction false} JoinBehavior(ws: seq<World>, ss: seq<Step>, n: nat)
    requires Behavior(ONE_JOB, ws, ss) && ws[|ss|] == Crowd(0)
    ensures Behavior(ONE_JOB, JoinWorlds(ws, n), JoinSteps(ss, n))
    ensures JoinWorlds(ws, n)[|JoinSteps(ss, n)|] == Crowd(n)
  {
    if n > 0 {
      JoinBehavior(ws, ss, n - 1);
      CrowdExtends(JoinWorlds(ws, n - 1), JoinSteps(ss, n - 1), n - 1);
    }
  }

  lemma {:induction false} CrowdCountsGrow(ws: seq<World>, ss: seq<Step>, n: nat)
    requires |ws| == |ss| + 1 && ws[|ss|] == Crowd(n)
    ensures var ws' := ws + [Joining(n)] + [Crowd(n + 1)]; var ss' := ss + [Reclaim(0, n + 2)] + [Advance(n + 1, 0.0)];
            && ClaimCount(ws', ss', |ss| + 2, 0) == ClaimCount(ws, ss, |ss|, 0) + 1
            && ReclaimCount(ws', ss', |ss| + 2, 0) == ReclaimCount(ws, ss, |ss|, 0) + 1
  {
    NextWorkerCounts(n);
    CountsExtend(ws, ss, Joining(n), Reclaim(0, n + 2), 0, 1);
    CountsExtend(ws + [Joining(n)], ss + [Reclaim(0, n + 2)], Crowd(n + 1), Advance(n + 1, 0.0), 1, 0);
  }

  ghost predicate CountsAre(ws: seq<World>, ss: seq<Step>, claims: nat, reclaims: nat) {
    |ss| <= |ws| && ClaimCount(ws, ss, |ss|, 0) == claims && ReclaimCount(ws, ss, |ss|, 0) == reclaims
  }

  lemma {:induction false} JoinCounts(ws: seq<World>, ss: seq<Step>, n: nat)
    requires |ws| == |ss| + 1 && ws[|ss|] == Crowd(0) && CountsAre(ws, ss, 1, 0)
    ensures CountsAre(JoinWorlds(ws, n), JoinSteps(ss, n), n + 1, n)
  {
    if n > 0 {
      JoinCounts(ws, ss, n - 1);
      CrowdCountsGrow(JoinWorlds(ws, n - 1), JoinSteps(ss, n - 1), n - 1);
    }
  }

  lemma FirstBehavior() returns (ws: seq<World>, ss: seq<Step>)
    ensures Behavior(ONE_JOB, ws, ss) && ws[|ss|] == Crowd(0) && CountsAre(ws, ss, 1, 0)
  {
    FirstWorker();
    FirstCounts();
    ws, ss := FIRST_WORLDS, FIRST_STEPS;
  }

  /**
   The bound of `ClaimAccounting` is exact: for every n some behaviour reclaims the entry of a
   run n times and claims the run n + 1 times, and ends with n + 1 live workers executing it.
   */
  lemma ClaimBoundIsReached(n: nat) returns (ws: seq<World>, ss: seq<Step>)
    ensures Behavior(ONE_JOB, ws, ss) && ws[|ss|] == Crowd(n) && CountsAre(ws, ss, n + 1, n)
  {
    var ws0, ss0 := FirstBehavior();
    JoinBehavior(ws0, ss0, n);
    JoinCounts(ws0, ss0, n);
    ws, ss := JoinWorlds(ws0, n), JoinSteps(ss0, n);
  }

  // ------------------------------------------------------- reachable worlds

  /** The behaviour ends in world `w`. */
  ghost predicate Ends(cfg: Config, ws: seq<World>, ss: seq<Step>, w: World) {
    Behavior(cfg, ws, ss) && ws[|ss|] == w
  }

  /** One more step. */
  lemma EndsAfter(cfg: Config, ws: seq<World>, ss: seq<Step>, w: World, s: Step)
    requires Ends(cfg, ws, ss, w) && Enabled(cfg, w, s)
    ensures Ends(cfg, ws + [Apply(cfg, w, s)], ss + [s], Apply(cfg, w, s))
  {
    Extend(cfg, ws, ss, s, Apply(cfg, w, s));
  }

  lemma HadSuccessExtends(ws: seq<World>, w: World, n: nat, d: JobId)
    requires |ws| == n + 1
    ensures DependencySafety.HadSuccess(ws + [w], n + 1, d)
       <==> DependencySafety.HadSuccess(ws, n, d) || HasSucceeded(w.runs, d)
  {
    if DependencySafety.HadSuccess(ws + [w], n + 1, d) {
      var k :| 0 <= k <= n + 1 && HasSucceeded((ws + [w])[k].runs, d);
      if k <= n { assert (ws + [w])[k] == ws[k]; }
    }
    if DependencySafety.HadSuccess(ws, n, d) {
      var k :| 0 <= k <= n && HasSucceeded(ws[k].runs, d);
      assert (ws + [w])[k] == ws[k];
    }
    assert (ws + [w])[n + 1] == w;
  }

  // ------------------------------------------------------- terminal statuses

  /**
   A step changes the terminal status of a run exactly when a task finishes it with another
   result, and the status is not CANCELED.
   */
  lemma TerminalChangesIff(cfg: Config, w: World, s: Step, w': World, r: RunId)
    requires Next(cfg, w, s, w') && r < |w.runs| && Terminal(w.runs[r].status)
    ensures r < |w'.runs|
    ensures w'.runs[r].status != w.runs[r].status <==>
              && s.Advance? && w.tasks[s.task].run == r && w.tasks[s.task].pc.Finishing?
              && w.runs[r].status != Canceled && w.tasks[s.task].pc.result != w.runs[r].status
  {
    StepGrows(cfg, w, s, w');
    if s.TriggerJob? {
      var plan := Trigger.TriggerPlan(cfg.edges, w.runs, s.job, s.now);
      if plan.Plan? { TriggerExtends(cfg, w.runs, s.job, s.now, plan); }
    }
  }

  function Duo(status: Status, first: Pc, second: Pc): World {
    TwoHolders(status, Held(1), first, second, {})
  }

  lemma FirstFinishes(ws: seq<World>, ss: seq<Step>) returns (ws': seq<World>, ss': seq<Step>)
    requires Ends(ONE_JOB, ws, ss, Duo(Running, Executing, Executing))
    ensures Ends(ONE_JOB, ws', ss', Duo(Succeeded, Reading, Executing))
  {
    assert Apply(ONE_JOB, Duo(Running, Executing, Executing), Execute(0, Succeeded))
        == Duo(Running, Checking(Succeeded), Executing);
    EndsAfter(ONE_JOB, ws, ss, Duo(Running, Executing, Executing), Execute(0, Succeeded));
    ws', ss' := ws + [Duo(Running, Checking(Succeeded), Executing)], ss + [Execute(0, Succeeded)];
    ws', ss' := FirstCommits(ws', ss');
  }

  lemma FirstCommits(ws: seq<World>, ss: seq<Step>) returns (ws': seq<World>, ss': seq<Step>)
    requires Ends(ONE_JOB, ws, ss, Duo(Running, Checking(Succeeded), Executing))
    ensures Ends(ONE_JOB, ws', ss', Duo(Succeeded, Reading, Executing))
  {
    assert Apply(ONE_JOB, Duo(Running, Checking(Succeeded), Executing), Advance(0, 0.0))
        == Duo(Running, Finishing(Succeeded), Executing);
    assert Apply(ONE_JOB, Duo(Running, Finishing(Succeeded), Executing), Advance(0, 0.0))
        == Duo(Succeeded, Reading, Executing);
    EndsAfter(ONE_JOB, ws, ss, Duo(Running, Checking(Succeeded), Executing), Advance(0, 0.0));
    ws', ss' := ws + [Duo(Running, Finishing(Succeeded), Executing)], ss + [Advance(0, 0.0)];
    EndsAfter(ONE_JOB, ws', ss', Duo(Running, Finishing(Succeeded), Executing), Advance(0, 0.0));
    ws', ss' := ws' + [Duo(Succeeded, Reading, Executing)], ss' + [Advance(0, 0.0)];
  }

  lemma SecondFails(ws: seq<World>, ss: seq<Step>) returns (ws': seq<World>, ss': seq<Step>)
    requires Ends(ONE_JOB, ws, ss, Duo(Succeeded, Reading, Executing))
    ensures Ends(ONE_JOB, ws', ss', Duo(Succeeded, Reading, Finishing(Failed)))
  {
    assert Apply(ONE_JOB, Duo(Succeeded, Reading, Executing), Execute(1, Failed))
        == Duo(Succeeded, Reading, Checking(Failed));
    assert Apply(ONE_JOB, Duo(Succeeded, Reading, Checking(Failed)), Advance(1, 0.0))
        == Duo(Succeeded, Reading, Finishing(Failed));
    EndsAfter(ONE_JOB, ws, ss, Duo(Succeeded, Reading, Executing), Execute(1, Failed));
    ws', ss' := ws + [Duo(Succeeded, Reading, Checking(Failed))], ss + [Execute(1, Failed)];
    EndsAfter(ONE_JOB, ws', ss', Duo(Succeeded, Reading, Checking(Failed)), Advance(1, 0.0));
    ws', ss' := ws' + [Duo(Succeeded, Reading, Finishing(Failed))], ss' + [Advance(1, 0.0)];
  }

  /** With one reclaim from a live worker, a SUCCEEDED run becomes FAILED. */
  lemma TerminalOverwritten() returns (ws: seq<World>, ss: seq<Step>)
    ensures Behavior(ONE_JOB, ws, ss) && |ss| > 0
    ensures ws[|ss| - 1].runs == OneRun(Succeeded) && ws[|ss|].runs == OneRun(Failed)
  {
    var ws0, ss0 := ClaimBoundIsReached(1);
    assert Crowd(1).tasks == Duo(Running, Executing, Executing).tasks;
    ws0, ss0 := FirstFinishes(ws0, ss0);
    ws0, ss0 := SecondFails(ws0, ss0);
    var w := Duo(Succeeded, Reading, Finishing(Failed));
    assert Apply(ONE_JOB, w, Advance(1, 0.0)).runs == OneRun(Failed);
    EndsAfter(ONE_JOB, ws0, ss0, w, Advance(1, 0.0));
    ws, ss := ws0 + [Apply(ONE_JOB, w, Advance(1, 0.0))], ss0 + [Advance(1, 0.0)];
  }

  // ------------------------------------------------------- duplicates and crashed workers

  /** Entries 0 and 1 of run 0 go to workers 1 and 2; worker 2 crashes; worker 3 reclaims its entry. */
  function TwiceWorld(status: Status, e0: EntryState, e1: EntryState, tasks: seq<Task>, dead: set<WorkerId>): World {
    World(OneRun(status), [Entry(0, e0), Entry(0, e1)], map[], multiset{}, tasks, dead)
  }

  function TwiceWorlds(): seq<World> {
    [INIT,
     World(OneRun(Queued), [], map[], multiset{0}, [], {}),
     World(OneRun(Queued), [], map[], multiset{0, 0}, [], {}),
     World(OneRun(Queued), [Entry(0, Unread)], map[], multiset{0}, [], {}),
     TwiceWorld(Queued, Unread, Unread, [], {}),
     TwiceWorld(Queued, Held(0), Unread, [Task(1, 0, 0, false, Start)], {}),
     TwiceWorld(Queued, Held(0), Held(1), [Task(1, 0, 0, false, Start), Task(2, 1, 0, false, Start)], {}),
     TwiceWorld(Running, Held(0), Held(1), [Task(1, 0, 0, false, Executing), Task(2, 1, 0, false, Start)], {}),
     TwiceWorld(Running, Held(0), Held(1), [Task(1, 0, 0, false, Executing), Task(2, 1, 0, false, Start)], {2}),
     TwiceWorld(Running, Held(0), Held(2),
       [Task(1, 0, 0, false, Executing), Task(2, 1, 0, false, Start), Task(3, 1, 0, true, Start)], {2}),
     TwiceWorld(Running, Held(0), Held(2),
       [Task(1, 0, 0, false, Executing), Task(2, 1, 0, false, Start), Task(3, 1, 0, true, Executing)], {2})]
  }

  function TwiceSteps(): seq<Step> {
    [TriggerJob(0, 0.0), RequeueOrphans(100.0), Publish(0), Publish(0), Deliver(0, 1), Deliver(1, 2), Advance(0, 0.0),
     Crash(2), Reclaim(1, 3), Advance(2, 0.0)]
  }

  ghost predicate TwiceNext(from: nat, to: nat)
    requires to <= 10
  {
    forall i :: from <= i < to ==> Next(ONE_JOB, TwiceWorlds()[i], TwiceSteps()[i], TwiceWorlds()[i + 1])
  }

  lemma TwiceTriggered()
    ensures TwiceNext(0, 1)
  {
    assert Deps([], 0) == [];
    TriggerLeaf(ONE_JOB, INIT, 0, 0.0);
  }

  lemma TwiceRequeued()
    ensures TwiceNext(1, 2)
  {
    assert OrphanIds(OneRun(Queued)[..0], 100.0) == [];
    assert OrphanIds(OneRun(Queued), 100.0) == [0];
    assert multiset{0} + multiset([0]) == multiset{0, 0};
  }

  lemma TwicePublished()
    ensures TwiceNext(2, 3)
  {
    assert multiset{0, 0} - multiset{0} == multiset{0};
  }

  lemma TwicePublishedAgain()
    ensures TwiceNext(3, 4)
  {
    assert multiset{0} - multiset{0} == multiset{};
  }

  lemma TwiceDelivered()
    ensures TwiceNext(4, 7)
  {
    var ws, ss := TwiceWorlds(), TwiceSteps();
    assert Next(ONE_JOB, ws[4], ss[4], ws[5]);
    assert Next(ONE_JOB, ws[5], ss[5], ws[6]);
    assert Next(ONE_JOB, ws[6], ss[6], ws[7]);
  }

  lemma TwiceReclaimed()
    ensures TwiceNext(7, 10)
  {
    var ws, ss := TwiceWorlds(), TwiceSteps();
    assert Next(ONE_JOB, ws[7], ss[7], ws[8]);
    assert Next(ONE_JOB, ws[8], ss[8], ws[9]);
    assert Next(ONE_JOB, ws[9], ss[9], ws[10]);
  }

  lemma TwiceBehavior()
    ensures Behavior(ONE_JOB, TwiceWorlds(), TwiceSteps())
  {
    TwiceTriggered();
    TwiceRequeued();
    TwicePublished();
    TwicePublishedAgain();
    TwiceDelivered();
    TwiceReclaimed();
  }

  /** Only the ninth step is a reclaim, and the holder of its entry has crashed. */
  lemma TwiceSafe()
    ensures forall i :: 0 <= i < 10 ==> SafeReclaim(TwiceWorlds()[i], TwiceSteps()[i])
  {}

  /**
   Even if reclaims only take entries of crashed workers, two live workers can execute one run:
   an orphan re-enqueue made a second entry, and the worker that held it crashed.
   */
  lemma SafeReclaimsExecuteTwice()
    ensures Behavior(ONE_JOB, TwiceWorlds(), TwiceSteps())
    ensures forall i :: 0 <= i < 10 ==> SafeReclaim(TwiceWorlds()[i], TwiceSteps()[i])
    ensures Live(TwiceWorlds()[10], 0) && TwiceWorlds()[10].tasks[0] == Task(1, 0, 0, false, Executing)
    ensures Live(TwiceWorlds()[10], 2) && TwiceWorlds()[10].tasks[2] == Task(3, 1, 0, true, Executing)
  {
    TwiceBehavior();
    TwiceSafe();
  }

  /**
   It takes a duplicate: in every behaviour whose reclaims only take entries of crashed workers,
   two live workers past the claim of one run hold two different entries of it.
   */
  lemma TwoExecutionsTwoEntries(cfg: Config, ws: seq<World>, ss: seq<Step>, i: nat, t: TaskId, u: TaskId)
    requires Behavior(cfg, ws, ss) && i < |ws| && forall k :: 0 <= k < |ss| ==> SafeReclaim(ws[k], ss[k])
    requires t != u && Live(ws[i], t) && Live(ws[i], u) && ws[i].tasks[t].run == ws[i].tasks[u].run
    requires PreFinish(ws[i].tasks[t].pc) && PreFinish(ws[i].tasks[u].pc)
    ensures var w := ws[i]; var m, n := w.tasks[t].msg, w.tasks[u].msg;
            m != n && m < |w.stream| && n < |w.stream| && w.stream[m].run == w.stream[n].run == w.tasks[t].run
  {
    NoRunIsLost(cfg, ws, ss, i);
    var w := ws[i];
    assert TaskKnown(w.runs, w.stream, w.tasks[t]) && TaskKnown(w.runs, w.stream, w.tasks[u]);
    assert HolderOk(w, t) && HolderOk(w, u);
  }
}
