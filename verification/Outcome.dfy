/** For every active run of every reachable world: exactly when it can finish without a user. */
module Outcome {
  import opened Runs
  import opened Store
  import opened Protocol
  import opened Lifecycle
  import opened NoLoss
  import opened Recovery
  import opened Stranded
  import opened Rounds
  import Trigger

  // ------------------------------------------------------- one PENDING run per job

  ghost predicate SinglePending(runs: seq<Run>) {
    forall x, y :: 0 <= x < y < |runs| && runs[x].status == Pending && runs[y].status == Pending ==>
          runs[x].job != runs[y].job
  }

  /** Only a trigger inserts PENDING rows. */
  lemma NoNewPending(cfg: Config, w: World, s: Step, w': World, x: RunId)
    requires Next(cfg, w, s, w') && !s.TriggerJob? && |w.runs| <= x < |w'.runs|
    ensures w'.runs[x].status != Pending
  {
    if s.Advance? && w.tasks[s.task].pc.FanOut? && w.tasks[s.task].pc.todo != [] {
      DependencyRunExact(w.runs, w.tasks[s.task].pc.todo[0], s.now);
    } else if s.Advance? && w.tasks[s.task].pc.LateFanOut? {
      DependencyRunExact(w.runs, w.tasks[s.task].pc.job, s.now);
    }
  }

  lemma TriggerPending(cfg: Config, runs: seq<Run>, job: JobId, now: real, plan: Trigger.Plan, x: RunId, y: RunId)
    requires plan == Trigger.TriggerPlan(cfg.edges, runs, job, now) && plan.Plan? && SinglePending(runs)
    requires x < y < |plan.runs| && plan.runs[x].status == Pending && plan.runs[y].status == Pending
    ensures plan.runs[x].job != plan.runs[y].job
  {
    Trigger.TriggerPlanCorrect(cfg.edges, runs, job, now, plan);
    if y >= |runs| {
      assert Trigger.NewRowOk(cfg.edges, runs, job, now, plan, y);
      if x < |runs| { assert plan.runs[x] == runs[x]; }
    } else {
      assert plan.runs[x] == runs[x] && plan.runs[y] == runs[y];
    }
  }

  lemma SinglePendingStep(cfg: Config, w: World, s: Step, w': World)
    requires Next(cfg, w, s, w') && SinglePending(w.runs)
    ensures SinglePending(w'.runs)
  {
    StepGrows(cfg, w, s, w');
    forall x, y | 0 <= x < y < |w'.runs| && w'.runs[x].status == Pending && w'.runs[y].status == Pending
      ensures w'.runs[x].job != w'.runs[y].job
    {
      if s.TriggerJob? {
        var plan := Trigger.TriggerPlan(cfg.edges, w.runs, s.job, s.now);
        if plan.Plan? { TriggerPending(cfg, w.runs, s.job, s.now, plan, x, y); }
      } else if y >= |w.runs| {
        NoNewPending(cfg, w, s, w', y);
      }
    }
  }

  /** In every reachable world a job has at most one PENDING run. */
  lemma {:induction false} SinglePendingAlways(cfg: Config, ws: seq<World>, ss: seq<Step>, i: nat)
    requires Behavior(cfg, ws, ss) && i < |ws|
    ensures SinglePending(ws[i].runs)
  {
    if i > 0 {
      SinglePendingAlways(cfg, ws, ss, i - 1);
      assert StepAt(cfg, ws, ss, i - 1);
      SinglePendingStep(cfg, ws[i - 1], ss[i - 1], ws[i]);
    }
  }

  // ------------------------------------------------------- every active run

  /**
   In every reachable world, whatever crashes, cancels and reclaims led to it: a QUEUED run can
   always finish without a user; a RUNNING run can if and only if something still refers to it;
   a PENDING run can if and only if a fan-out can still reach its job.
   */
  lemma ActiveFinishesIff(cfg: Config, ws: seq<World>, ss: seq<Step>, i: nat, r: RunId)
    requires Behavior(cfg, ws, ss) && i < |ws| && r < |ws[i].runs| && Active(ws[i].runs[r].status)
    ensures CanFinish(cfg, ws[i], r, false) <==>
              if ws[i].runs[r].status == Queued then true
              else if ws[i].runs[r].status == Running then Recoverable(ws[i], r)
              else Promotable(cfg, ws[i], ws[i].runs[r].job)
  {
    NothingInFlightIsPending(cfg, ws, ss, i);
    if ws[i].runs[r].status == Queued {
      QueuedFinishes(cfg, ws[i], r, false);
    } else if ws[i].runs[r].status == Running {
      CanFinishIffRecoverable(cfg, ws[i], r);
    } else {
      SinglePendingAlways(cfg, ws, ss, i);
      PendingFinishesIff(cfg, ws[i], r);
    }
  }

  // ------------------------------------------------------- a crash before the fan-out strands a run

  /** Job 1 depends on job 0; both are enabled and neither is scheduled. */
  const PAIR := Config(map[0 := Job(true, false, 0, 0), 1 := Job(true, false, 0, 0)], [Edge(1, 0)])

  function PairRuns(status: Status): seq<Run> {
    [Run(0, Planned, status, 1, 0.0), Run(1, Manual, Pending, 1, 0.0)]
  }

  function PairWorld(status: Status, pc: Pc, dead: set<WorkerId>): World {
    World(PairRuns(status), [Entry(0, Held(0))], map[], multiset{}, [Task(1, 0, 0, false, pc)], dead)
  }

  function StrandedWorlds(): seq<World> {
    [INIT,
     World(PairRuns(Queued), [], map[], multiset{0}, [], {}),
     World(PairRuns(Queued), [Entry(0, Unread)], map[], multiset{}, [], {}),
     PairWorld(Queued, Start, {}),
     PairWorld(Running, Executing, {}),
     PairWorld(Running, Checking(Succeeded), {}),
     PairWorld(Running, Finishing(Succeeded), {}),
     PairWorld(Succeeded, Reading, {}),
     PairWorld(Succeeded, Reading, {1})]
  }

  function StrandedSteps(): seq<Step> {
    [TriggerJob(1, 0.0), Publish(0), Deliver(0, 1), Advance(0, 0.0), Execute(0, Succeeded), Advance(0, 0.0),
     Advance(0, 0.0), Crash(1)]
  }

  lemma PairLeaf()
    ensures Deps(PAIR.edges, 0) == [] && Deps(PAIR.edges, 1) == [0]
    ensures Trigger.PrepareAll(PAIR.edges, [], [], [0], [1], 0.0)
         == Trigger.Plan([Run(0, Planned, Queued, 1, 0.0)], [0], 0)
  {
    assert Deps(PAIR.edges[1..], 0) == [] && Deps(PAIR.edges[1..], 1) == [];
    assert Trigger.Prepare(PAIR.edges, [], [], 0, Planned, [1], 0.0)
        == Trigger.Plan([Run(0, Planned, Queued, 1, 0.0)], [0], 0);
    assert [0][1..] == [];
  }

  lemma PairPlan()
    ensures Trigger.TriggerPlan(PAIR.edges, [], 1, 0.0) == Trigger.Plan(PairRuns(Queued), [0], 1)
  {
    PairLeaf();
    assert [] + [1] == [1];
    assert !HasActive([Run(0, Planned, Queued, 1, 0.0)], 1);
  }

  lemma PairTriggered()
    ensures Next(PAIR, StrandedWorlds()[0], StrandedSteps()[0], StrandedWorlds()[1])
  {
    PairPlan();
    assert multiset([0]) == multiset{0};
  }

  lemma PairDispatched()
    ensures forall i :: 1 <= i < 4 ==> Next(PAIR, StrandedWorlds()[i], StrandedSteps()[i], StrandedWorlds()[i + 1])
  {
    var ws, ss := StrandedWorlds(), StrandedSteps();
    assert Next(PAIR, ws[1], ss[1], ws[2]);
    assert Next(PAIR, ws[2], ss[2], ws[3]);
    assert Next(PAIR, ws[3], ss[3], ws[4]);
  }

  lemma PairExecuted()
    ensures forall i :: 4 <= i < 8 ==> Next(PAIR, StrandedWorlds()[i], StrandedSteps()[i], StrandedWorlds()[i + 1])
  {
    var ws, ss := StrandedWorlds(), StrandedSteps();
    assert Next(PAIR, ws[4], ss[4], ws[5]);
    assert Next(PAIR, ws[5], ss[5], ws[6]);
    assert Next(PAIR, ws[6], ss[6], ws[7]);
    assert Next(PAIR, ws[7], ss[7], ws[8]);
  }

  lemma PairNotPromotable()
    ensures !Promotable(PAIR, StrandedWorlds()[8], 1)
  {
    var w := StrandedWorlds()[8];
    assert forall t: TaskId :: !Live(w, t);
    assert !Named(w, 1) && !Named(w, 0) && !Token(w, 0) && !Source(PAIR, w, 0);
    forall n: nat ensures !Fed(PAIR, w, 1, n) {
      assert forall e :: e in Deps(PAIR.edges, 1) ==> e == 0;
      assert forall e :: e !in Deps(PAIR.edges, 0);
      assert !CanSucceed(PAIR, w, 0, n);
    }
  }

  /**
   Without any reclaim, a crash after `finish_run` and before the fan-out leaves the dependent
   PENDING for good: the reclaimed delivery finds a finished run and is acked.
   */
  lemma StrandedRunReachable()
    ensures Behavior(PAIR, StrandedWorlds(), StrandedSteps())
    ensures forall i :: 0 <= i < 8 ==>
              !StrandedSteps()[i].Reclaim? && SafeReclaim(StrandedWorlds()[i], StrandedSteps()[i])
    ensures StrandedWorlds()[8].runs[0].status == Succeeded && StrandedWorlds()[8].runs[1].status == Pending
    ensures !CanFinish(PAIR, StrandedWorlds()[8], 1, false)
  {
    PairTriggered();
    PairDispatched();
    PairExecuted();
    PairNotPromotable();
    ActiveFinishesIff(PAIR, StrandedWorlds(), StrandedSteps(), 8, 1);
  }
}
