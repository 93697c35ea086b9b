/**
 The whole backoff of a retry is not always honoured: what it takes for a retry to be early.
 `Grounded` turns this into a condition on the configuration.
 */
module Backoff {
  import opened Runs
  import opened Store
  import opened RetryPolicy
  import opened Protocol
  import opened Lifecycle
  import opened Claims
  import opened NoLoss
  import opened WithoutReclaims
  import opened Timing
  import opened Recovery

  /** A retry of job `j` on the stream before its whole backoff has passed. */
  ghost predicate TooEarly(cfg: Config, j: JobId, w: World, time: real, m: MsgId) {
    && TimedReach(cfg, w, time) && m < |w.stream| && Retry(w.runs, w.stream[m].run)
    && w.runs[w.stream[m].run].job == j
    && time < w.runs[w.stream[m].run].createdAt + DelayOf(cfg, w.runs, w.stream[m].run)
  }

  /** In every timed behaviour every retry of the job waits its whole backoff. */
  ghost predicate AlwaysHonoured(cfg: Config, j: JobId) {
    forall w, time, m: MsgId :: !TooEarly(cfg, j, w, time, m)
  }

  ghost predicate QueuedAttempt(w: World, j: JobId, a: nat, x: RunId) {
    x < |w.runs| && w.runs[x].job == j && w.runs[x].attempt == a && w.runs[x].status == Queued
  }

  ghost predicate QueuedAt(cfg: Config, j: JobId, a: nat, w: World, time: real, x: RunId) {
    TimedReach(cfg, w, time) && QueuedAttempt(w, j, a, x)
  }

  /** Some timed behaviour queues a run of job `j` that would be retried if it failed. */
  ghost predicate Retryable(cfg: Config, j: JobId) {
    exists w, time, x: RunId, a: nat :: QueuedAt(cfg, j, a, w, time, x) && j in cfg.jobs && a <= cfg.jobs[j].maxRetries
  }

  // ------------------------------------------------------- failing as often as allowed

  /** The orphan scan publishes a queued run, whatever the delayed set says. */
  lemma Republish(cfg: Config, w: World, x: RunId, time: real, now: real) returns (w': World)
    requires TimedReach(cfg, w, time) && x < |w.runs| && w.runs[x].status == Queued && time <= now
    requires w.runs[x].createdAt < now - ORPHAN_AFTER
    ensures TimedReach(cfg, w', now) && w'.runs == w.runs && w'.tasks == w.tasks
    ensures w'.stream == w.stream + [Entry(x, Unread)]
  {
    assert x in OrphanIds(w.runs, now);
    ReachStep(cfg, w, time, RequeueOrphans(now), now);
    var w1 := Apply(cfg, w, RequeueOrphans(now));
    ReachStep(cfg, w1, now, Publish(x), now);
    w' := Apply(cfg, w1, Publish(x));
  }

  /** The published run is delivered and claimed, and its execution fails. */
  lemma FailOnce(cfg: Config, w: World, x: RunId, time: real) returns (w': World, time': real)
    requires TimedReach(cfg, w, time) && x < |w.runs| && w.runs[x].status == Queued
    ensures TimedReach(cfg, w', time') && time <= time' && w'.runs == SetStatus(w.runs, x, Running)
    ensures Live(w', |w.tasks|) && w'.tasks[|w.tasks|].pc == Checking(Failed) && w'.tasks[|w.tasks|].run == x
  {
    var m, t := |w.stream|, |w.tasks|;
    time' := (if time < w.runs[x].createdAt then w.runs[x].createdAt else time) + ORPHAN_AFTER + 1.0;
    var w1 := Republish(cfg, w, x, time, time');
    var k := FreshWorker(w1);
    ReachStep(cfg, w1, time', Deliver(m, k), time');
    var w2 := Apply(cfg, w1, Deliver(m, k));
    ReachStep(cfg, w2, time', Advance(t, time'), time');
    var w3 := Apply(cfg, w2, Advance(t, time'));
    ReachStep(cfg, w3, time', Execute(t, Failed), time');
    w' := Apply(cfg, w3, Execute(t, Failed));
  }

  /** The failure is retried. */
  lemma FailAndRetry(cfg: Config, w: World, j: JobId, a: nat, x: RunId, time: real) returns (w': World, time': real)
    requires QueuedAt(cfg, j, a, w, time, x) && j in cfg.jobs && a <= cfg.jobs[j].maxRetries
    ensures QueuedAt(cfg, j, a + 1, w', time', |w.runs|) && |w'.runs| == |w.runs| + 1
    ensures w'.runs[|w.runs|].origin == AutoRetry(x) && w'.runs[|w.runs|].createdAt == time'
    ensures w'.runs[x].attempt == a && w'.runs[x].job == j
  {
    var t := |w.tasks|;
    var w4;
    w4, time' := FailOnce(cfg, w, x, time);
    ReachStep(cfg, w4, time', Advance(t, time'), time');
    var w5 := Apply(cfg, w4, Advance(t, time'));
    ReachStep(cfg, w5, time', Advance(t, time'), time');
    w' := Apply(cfg, w5, Advance(t, time'));
  }

  /** From a queued attempt every later one up to max_retries + 1 can be reached. */
  lemma {:induction false} AttemptReachable(cfg: Config, j: JobId, a: nat, w: World, time: real, x: RunId, b: nat)
      returns (w': World, time': real, x': RunId, p: RunId)
    requires QueuedAt(cfg, j, a, w, time, x) && j in cfg.jobs && a < b <= cfg.jobs[j].maxRetries + 1
    ensures QueuedAt(cfg, j, b, w', time', x') && w'.runs[x'].createdAt == time'
    ensures w'.runs[x'].origin == AutoRetry(p) && p < |w'.runs| && w'.runs[p].attempt == b - 1 && w'.runs[p].job == j
    decreases b
  {
    var w0, time0, x0 := w, time, x;
    if a + 1 < b { w0, time0, x0, p := AttemptReachable(cfg, j, a, w, time, x, b - 1); }
    w', time' := FailAndRetry(cfg, w0, j, b - 1, x0, time0);
    x', p := |w0.runs|, x0;
  }

  // ------------------------------------------------------- a retry's parent was queued

  ghost predicate EverQueued(ws: seq<World>, i: nat, x: RunId)
    requires i < |ws|
  {
    exists k :: 0 <= k <= i && x < |ws[k].runs| && ws[k].runs[x].status == Queued
  }

  ghost predicate PastClaim(pc: Pc) { PreFinish(pc) || pc.LateRetry? }

  /** RUNNING runs, runs past their claim and retried runs were queued once. */
  ghost predicate QueuedBefore(ws: seq<World>, i: nat)
    requires i < |ws|
  {
    var w := ws[i];
    && (forall x :: 0 <= x < |w.runs| && w.runs[x].status == Running ==> EverQueued(ws, i, x))
    && (forall t :: 0 <= t < |w.tasks| && PastClaim(w.tasks[t].pc) ==> EverQueued(ws, i, w.tasks[t].run))
    && (forall x :: 0 <= x < |w.runs| && w.runs[x].origin.AutoRetry? ==> EverQueued(ws, i, w.runs[x].origin.parent))
  }

  lemma EverQueuedLater(ws: seq<World>, i: nat, x: RunId)
    requires i + 1 < |ws| && EverQueued(ws, i, x)
    ensures EverQueued(ws, i + 1, x)
  {}

  /** A task is past its claim only by a claim, or was so before. */
  lemma PastClaimFrom(cfg: Config, w: World, s: Step, w': World, t: TaskId)
    requires Next(cfg, w, s, w') && t < |w'.tasks| && PastClaim(w'.tasks[t].pc)
    ensures || (t < |w.tasks| && PastClaim(w.tasks[t].pc) && w'.tasks[t].run == w.tasks[t].run)
            || ClaimsRun(w, s, w'.tasks[t].run)
            || (s.Abort? && s.task < |w.tasks| && PastClaim(w.tasks[s.task].pc)
                && w'.tasks[t].run == w.tasks[s.task].run)
  {
    StepTasks(cfg, w, s, w');
    assert TaskSource(w, s, w', t);
    if s.Advance? && s.task == t { AdvancePastClaim(cfg, w, t, s.now); }
  }

  lemma AdvancePastClaim(cfg: Config, w: World, t: TaskId, now: real)
    requires t < |w.tasks| && w.tasks[t].run < |w.runs|
    ensures var w' := AdvanceTask(cfg, w, t, now);
            t < |w'.tasks| && (PastClaim(w'.tasks[t].pc) ==>
              PastClaim(w.tasks[t].pc) || ClaimsRun(w, Advance(t, now), w.tasks[t].run))
  {
    if !PastClaim(w.tasks[t].pc) && w.tasks[t].pc != Start { NeverBack(cfg, w, t, now); }
  }

  lemma NeverBack(cfg: Config, w: World, t: TaskId, now: real)
    requires t < |w.tasks| && w.tasks[t].run < |w.runs| && !PastClaim(w.tasks[t].pc) && w.tasks[t].pc != Start
    ensures var w' := AdvanceTask(cfg, w, t, now); t < |w'.tasks| && !PastClaim(w'.tasks[t].pc)
  {}

  lemma ClaimedWasQueued(ws: seq<World>, i: nat, s: Step, x: RunId)
    requires i < |ws| && InFlightKnown(ws[i]) && QueuedBefore(ws, i) && ClaimsRun(ws[i], s, x)
    ensures EverQueued(ws, i, x)
  {
    assert TaskKnown(ws[i].runs, ws[i].stream, ws[i].tasks[s.task]);
  }

  lemma QueuedBeforeStep(cfg: Config, ws: seq<World>, i: nat, s: Step)
    requires i + 1 < |ws| && Next(cfg, ws[i], s, ws[i + 1]) && InFlightKnown(ws[i]) && QueuedBefore(ws, i)
    ensures QueuedBefore(ws, i + 1)
  {
    var w, w' := ws[i], ws[i + 1];
    forall x | 0 <= x < |w'.runs| && w'.runs[x].status == Running ensures EverQueued(ws, i + 1, x) {
      RunningSource(cfg, w, s, w', x);
      if ClaimsRun(w, s, x) { ClaimedWasQueued(ws, i, s, x); }
      EverQueuedLater(ws, i, x);
    }
    forall t | 0 <= t < |w'.tasks| && PastClaim(w'.tasks[t].pc) ensures EverQueued(ws, i + 1, w'.tasks[t].run) {
      PastClaimFrom(cfg, w, s, w', t);
      if ClaimsRun(w, s, w'.tasks[t].run) { ClaimedWasQueued(ws, i, s, w'.tasks[t].run); }
      EverQueuedLater(ws, i, w'.tasks[t].run);
    }
    StepGrows(cfg, w, s, w');
    forall x | 0 <= x < |w'.runs| && w'.runs[x].origin.AutoRetry?
      ensures EverQueued(ws, i + 1, w'.runs[x].origin.parent) {
      if x >= |w.runs| { StepBirth(cfg, w, s, w', x); }
      EverQueuedLater(ws, i, w'.runs[x].origin.parent);
    }
  }

  lemma {:induction false} QueuedBeforeAlways(cfg: Config, ws: seq<World>, ss: seq<Step>, i: nat)
    requires Behavior(cfg, ws, ss) && i < |ws|
    ensures QueuedBefore(ws, i)
  {
    if i > 0 {
      QueuedBeforeAlways(cfg, ws, ss, i - 1);
      NothingInFlightIsPending(cfg, ws, ss, i - 1);
      assert StepAt(cfg, ws, ss, i - 1);
      QueuedBeforeStep(cfg, ws, i - 1, ss[i - 1]);
    }
  }

  lemma TimedPrefix(cfg: Config, ws: seq<World>, ss: seq<Step>, times: seq<real>, k: nat, time: real)
    requires TimedBehavior(cfg, ws, ss, times) && k <= |ss| && forall i :: 0 <= i < |times| ==> times[i] <= time
    ensures TimedReach(cfg, ws[k], time)
  {
    var ws', ss', times' := ws[..k + 1], ss[..k], times[..k];
    forall i | 0 <= i < k ensures StepAt(cfg, ws', ss', i) { assert StepAt(cfg, ws, ss, i); }
    assert forall i :: 0 <= i < k ==> Timely(ws[i], ss[i], times[i]);
    assert ReachedBy(cfg, ws[k], time, ws', ss', times');
  }

  /** An early retry is one of a retryable run, and its backoff exceeds the threshold. */
  lemma EarlyMeansLong(cfg: Config, j: JobId, w: World, time: real, m: MsgId)
    requires TooEarly(cfg, j, w, time, m)
    ensures Retryable(cfg, j) && j in cfg.jobs
    ensures BackoffSeconds(cfg.jobs[j].maxRetries, cfg.jobs[j].backoffSec) as real > 60.0
  {
    var ws: seq<World>, ss: seq<Step>, times :| ReachedBy(cfg, w, time, ws, ss, times);
    assert ss != [];
    EarliestDispatch(cfg, ws, ss, times, |ss|, m);
    CountsAlways(cfg, ws, ss, |ss|);
    var r := w.stream[m].run;
    var p := w.runs[r].origin.parent;
    assert CountOk(cfg, w.runs, r) && CountOk(cfg, w.runs, p);
    BackoffMonotone(w.runs[p].attempt, cfg.jobs[j].maxRetries, cfg.jobs[j].backoffSec);
    QueuedBeforeAlways(cfg, ws, ss, |ss|);
    var k :| 0 <= k <= |ss| && p < |ws[k].runs| && ws[k].runs[p].status == Queued;
    StatusMonotone(cfg, ws, ss, k, |ss|);
    TimedPrefix(cfg, ws, ss, times, k, time);
    assert QueuedAt(cfg, j, w.runs[p].attempt, ws[k], time, p);
  }

  /** Some retry is early if and only if a retryable run is ever queued and the longest backoff is too long. */
  lemma EarlyIff(cfg: Config, j: JobId)
    ensures AlwaysHonoured(cfg, j) <==>
              || j !in cfg.jobs || !Retryable(cfg, j)
              || BackoffSeconds(cfg.jobs[j].maxRetries, cfg.jobs[j].backoffSec) as real <= 60.0
  {
    if || j !in cfg.jobs || !Retryable(cfg, j)
       || BackoffSeconds(cfg.jobs[j].maxRetries, cfg.jobs[j].backoffSec) as real <= 60.0
    {
      forall w, time, m: MsgId ensures !TooEarly(cfg, j, w, time, m) {
        if TooEarly(cfg, j, w, time, m) { EarlyMeansLong(cfg, j, w, time, m); }
      }
    } else {
      var n := cfg.jobs[j].maxRetries;
      var longest := BackoffSeconds(n, cfg.jobs[j].backoffSec) as real;
      var w0, time0, x0: RunId, a: nat :| QueuedAt(cfg, j, a, w0, time0, x0) && a <= n;
      var w, time, x, p := AttemptReachable(cfg, j, a, w0, time0, x0, n + 1);
      var now := time + (ORPHAN_AFTER + longest) / 2.0;
      var w' := Republish(cfg, w, x, time, now);
      assert TooEarly(cfg, j, w', now, |w.stream|);
    }
  }
}
