/**
 Runs that do not wait for their job's dependencies: those the scheduler inserts and those made
 by a retry through the API. With `DependencySafety.ClaimedAfterDependencies` this decides by
 origin which runs wait.
 */
module NotWaiting {
  import opened Runs
  import opened Protocol
  import opened Lifecycle
  import opened Claims
  import opened Recovery
  import opened DependencySafety
  import opened Boundaries
  import Trigger

  /** A behaviour that ends in `w` and in which job `d` never had a success. */
  ghost predicate Without(cfg: Config, d: JobId, ws: seq<World>, ss: seq<Step>, w: World) {
    Ends(cfg, ws, ss, w) && !HadSuccess(ws, |ss|, d)
  }

  lemma WithoutAfter(cfg: Config, d: JobId, ws: seq<World>, ss: seq<Step>, w: World, s: Step)
    requires Without(cfg, d, ws, ss, w) && Enabled(cfg, w, s) && !HasSucceeded(Apply(cfg, w, s).runs, d)
    ensures Without(cfg, d, ws + [Apply(cfg, w, s)], ss + [s], Apply(cfg, w, s))
  {
    EndsAfter(cfg, ws, ss, w, s);
    HadSuccessExtends(ws, Apply(cfg, w, s), |ss|, d);
  }

  lemma NotYet(cfg: Config, d: JobId, ws: seq<World>, ss: seq<Step>, w: World)
    requires Without(cfg, d, ws, ss, w)
    ensures !HasSucceeded(w.runs, d)
  {}

  /** The last step of the behaviour claims run `x`. */
  ghost predicate EndsInClaim(cfg: Config, d: JobId, ws: seq<World>, ss: seq<Step>, x: RunId, row: Run) {
    && Behavior(cfg, ws, ss) && |ss| > 0 && !HadSuccess(ws, |ss|, d)
    && ClaimsRun(ws[|ss| - 1], ss[|ss| - 1], x) && ws[|ss| - 1].runs[x] == row
  }

  lemma PublishIt(cfg: Config, d: JobId, ws: seq<World>, ss: seq<Step>, w: World, x: RunId)
      returns (ws': seq<World>, ss': seq<Step>, w': World)
    requires Without(cfg, d, ws, ss, w) && x in w.outbox
    ensures Without(cfg, d, ws', ss', w') && w'.runs == w.runs
    ensures |w'.stream| > 0 && w'.stream[|w'.stream| - 1] == Entry(x, Unread)
  {
    NotYet(cfg, d, ws, ss, w);
    w' := Apply(cfg, w, Publish(x));
    WithoutAfter(cfg, d, ws, ss, w, Publish(x));
    ws', ss' := ws + [w'], ss + [Publish(x)];
  }

  lemma DeliverIt(cfg: Config, d: JobId, ws: seq<World>, ss: seq<Step>, w: World, x: RunId)
      returns (ws': seq<World>, ss': seq<Step>, w': World)
    requires Without(cfg, d, ws, ss, w) && |w.stream| > 0 && w.stream[|w.stream| - 1] == Entry(x, Unread)
    ensures Without(cfg, d, ws', ss', w') && w'.runs == w.runs && |w'.tasks| > 0 && Live(w', |w'.tasks| - 1)
    ensures w'.tasks[|w'.tasks| - 1].run == x && w'.tasks[|w'.tasks| - 1].pc == Start
  {
    NotYet(cfg, d, ws, ss, w);
    var k := FreshWorker(w);
    var s := Deliver(|w.stream| - 1, k);
    w' := Apply(cfg, w, s);
    WithoutAfter(cfg, d, ws, ss, w, s);
    ws', ss' := ws + [w'], ss + [s];
  }

  lemma ClaimIt(cfg: Config, d: JobId, ws: seq<World>, ss: seq<Step>, w: World, x: RunId)
      returns (ws': seq<World>, ss': seq<Step>)
    requires Without(cfg, d, ws, ss, w) && |w.tasks| > 0 && Live(w, |w.tasks| - 1)
    requires w.tasks[|w.tasks| - 1].run == x < |w.runs|
    requires w.tasks[|w.tasks| - 1].pc == Start && w.runs[x].status == Queued
    ensures EndsInClaim(cfg, d, ws', ss', x, w.runs[x])
  {
    NotYet(cfg, d, ws, ss, w);
    var s := Advance(|w.tasks| - 1, 0.0);
    var w' := Apply(cfg, w, s);
    assert forall r :: 0 <= r < |w'.runs| ==> w'.runs[r] == w.runs[r] || w'.runs[r].status == Running;
    WithoutAfter(cfg, d, ws, ss, w, s);
    ws', ss' := ws + [w'], ss + [s];
    assert ws'[|ss|] == w;
  }

  /** A QUEUED run whose id is to be published is claimed, whatever its dependencies. */
  lemma PublishedIsClaimed(cfg: Config, d: JobId, ws: seq<World>, ss: seq<Step>, w: World, x: RunId)
      returns (ws': seq<World>, ss': seq<Step>)
    requires Without(cfg, d, ws, ss, w) && x in w.outbox && x < |w.runs| && w.runs[x].status == Queued
    ensures EndsInClaim(cfg, d, ws', ss', x, w.runs[x])
  {
    var w1, w2;
    ws', ss', w1 := PublishIt(cfg, d, ws, ss, w, x);
    ws', ss', w2 := DeliverIt(cfg, d, ws', ss', w1, x);
    ws', ss' := ClaimIt(cfg, d, ws', ss', w2, x);
  }

  lemma TickedRun(cfg: Config, j: JobId, d: JobId) returns (ws: seq<World>, ss: seq<Step>, w: World)
    requires Schedulable(cfg, j)
    ensures Without(cfg, d, ws, ss, w) && w.runs == [Run(j, Scheduled(0), Queued, 1, 0.0)] && 0 in w.outbox
  {
    assert Without(cfg, d, [INIT], [], INIT);
    var s := ScheduleTick(j, 0, 0.0);
    w := Apply(cfg, INIT, s);
    WithoutAfter(cfg, d, [INIT], [], INIT, s);
    ws, ss := [INIT] + [w], [] + [s];
  }

  /**
   For every enabled scheduled job and each of its dependencies, some behaviour claims a
   scheduled run of the job though that dependency never had a success.
   */
  lemma ScheduledRunDoesNotWait(cfg: Config, j: JobId, d: JobId) returns (ws: seq<World>, ss: seq<Step>)
    requires j in cfg.jobs && cfg.jobs[j].enabled && cfg.jobs[j].scheduled && d in Deps(cfg.edges, j)
    ensures EndsInClaim(cfg, d, ws, ss, 0, Run(j, Scheduled(0), Queued, 1, 0.0))
  {
    var w;
    ws, ss, w := TickedRun(cfg, j, d);
    ws, ss := PublishedIsClaimed(cfg, d, ws, ss, w, 0);
  }

  /** What every behaviour keeps of the scheduler's rows. */
  ghost predicate TicksOk(cfg: Config, runs: seq<Run>) {
    && (forall x :: 0 <= x < |runs| && runs[x].origin.Scheduled? ==>
          runs[x].job in cfg.jobs && cfg.jobs[runs[x].job].enabled && cfg.jobs[runs[x].job].scheduled)
    && (forall x, y :: 0 <= x < y < |runs| && runs[x].job == runs[y].job && runs[x].origin.Scheduled? ==>
          runs[x].origin != runs[y].origin)
  }

  lemma TicksStep(cfg: Config, w: World, s: Step, w': World)
    requires Next(cfg, w, s, w') && TicksOk(cfg, w.runs)
    ensures TicksOk(cfg, w'.runs)
  {
    StepGrows(cfg, w, s, w');
    forall x | |w.runs| <= x < |w'.runs| && w'.runs[x].origin.Scheduled?
      ensures s.ScheduleTick? && w'.runs == w.runs + [w'.runs[x]] && w'.runs[x].job == s.job
      ensures w'.runs[x].origin == Scheduled(s.tick) && !TickTaken(w.runs, s.job, s.tick)
    {
      ScheduledBirth(cfg, w, s, w', x);
    }
  }

  lemma ScheduledBirth(cfg: Config, w: World, s: Step, w': World, x: RunId)
    requires Next(cfg, w, s, w') && |w.runs| <= x < |w'.runs| && w'.runs[x].origin.Scheduled?
    ensures s.ScheduleTick? && w'.runs == w.runs + [w'.runs[x]] && w'.runs[x].job == s.job
    ensures w'.runs[x].origin == Scheduled(s.tick) && !TickTaken(w.runs, s.job, s.tick)
  {
    InsertionsExact(cfg, w, s, w', x);
  }

  /** Only enabled scheduled jobs ever have a scheduled run, and never two for one tick. */
  lemma {:induction false} TicksAlways(cfg: Config, ws: seq<World>, ss: seq<Step>, i: nat)
    requires Behavior(cfg, ws, ss) && i < |ws|
    ensures TicksOk(cfg, ws[i].runs)
  {
    if i > 0 {
      TicksAlways(cfg, ws, ss, i - 1);
      assert StepAt(cfg, ws, ss, i - 1);
      TicksStep(cfg, ws[i - 1], ss[i - 1], ws[i]);
    }
  }

  /**
   In every behaviour that ends with a terminal run, a retry of that run through the API can be
   claimed next, whichever dependencies have not succeeded.
   */
  lemma RetriedRunDoesNotWait(cfg: Config, d: JobId, ws: seq<World>, ss: seq<Step>, w: World, q: RunId)
      returns (ws': seq<World>, ss': seq<Step>)
    requires Without(cfg, d, ws, ss, w) && q < |w.runs| && Terminal(w.runs[q].status)
    ensures EndsInClaim(cfg, d, ws', ss', |w.runs|, Run(w.runs[q].job, ApiRetry(q), Queued, w.runs[q].attempt + 1, 0.0))
  {
    NotYet(cfg, d, ws, ss, w);
    var s := RetryRun(q, 0.0);
    var w1 := Apply(cfg, w, s);
    assert forall r :: 0 <= r < |w1.runs| ==> (r < |w.runs| && w1.runs[r] == w.runs[r]) || w1.runs[r].status == Queued;
    WithoutAfter(cfg, d, ws, ss, w, s);
    ws', ss' := PublishedIsClaimed(cfg, d, ws + [w1], ss + [s], w1, |w.runs|);
  }

  lemma CancelIt(cfg: Config, d: JobId, ws: seq<World>, ss: seq<Step>, w: World, q: RunId)
      returns (ws': seq<World>, ss': seq<Step>, w': World)
    requires Without(cfg, d, ws, ss, w) && q < |w.runs| && Active(w.runs[q].status)
    ensures Without(cfg, d, ws', ss', w') && q < |w'.runs| && w'.runs[q] == w.runs[q].(status := Canceled)
  {
    NotYet(cfg, d, ws, ss, w);
    var s := Step.CancelRun(q);
    w' := Apply(cfg, w, s);
    WithoutAfter(cfg, d, ws, ss, w, s);
    ws', ss' := ws + [w'], ss + [s];
  }

  lemma TriggeredRun(cfg: Config, j: JobId, d: JobId) returns (ws: seq<World>, ss: seq<Step>, w: World, q: RunId)
    requires j in cfg.jobs && Trigger.TriggerPlan(cfg.edges, [], j, 0.0).Plan?
    ensures Without(cfg, d, ws, ss, w) && q < |w.runs| && w.runs[q].job == j && Active(w.runs[q].status)
  {
    assert Without(cfg, d, [INIT], [], INIT);
    var s := Step.TriggerJob(j, 0.0);
    var plan := Trigger.TriggerPlan(cfg.edges, [], j, 0.0);
    TriggerExtends(cfg, [], j, 0.0, plan);
    Trigger.TriggerPlanCorrect(cfg.edges, [], j, 0.0, plan);
    w, q := Apply(cfg, INIT, s), plan.run;
    WithoutAfter(cfg, d, [INIT], [], INIT, s);
    ws, ss := [INIT] + [w], [] + [s];
  }

  /**
   For every job that can have a run at all, and each of its dependencies, some behaviour claims
   an API retry of the job though that dependency never had a success.
   */
  lemma ApiRetryDoesNotWait(cfg: Config, j: JobId, d: JobId)
      returns (ws: seq<World>, ss: seq<Step>, x: RunId, q: RunId, attempt: nat)
    requires j in cfg.jobs && d in Deps(cfg.edges, j)
    requires (cfg.jobs[j].enabled && cfg.jobs[j].scheduled) || Trigger.TriggerPlan(cfg.edges, [], j, 0.0).Plan?
    ensures EndsInClaim(cfg, d, ws, ss, x, Run(j, ApiRetry(q), Queued, attempt, 0.0))
  {
    var w;
    if Schedulable(cfg, j) {
      ws, ss, w := TickedRun(cfg, j, d);
      q := 0;
    } else {
      ws, ss, w, q := TriggeredRun(cfg, j, d);
    }
    ws, ss, w := CancelIt(cfg, d, ws, ss, w, q);
    x, attempt := |w.runs|, w.runs[q].attempt + 1;
    ws, ss := RetriedRunDoesNotWait(cfg, d, ws, ss, w, q);
  }
}
