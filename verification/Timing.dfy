/**
 When an automatic retry can first appear on the stream, under one clock that never goes
 back. The backoff is honoured up to the orphan threshold: the orphan scan looks at
 `created_at` only and ignores the delayed set.
 */
module Timing {
  import opened Runs
  import opened RetryPolicy
  import opened Store
  import opened Protocol
  import opened Lifecycle

  /**
   At clock time `time` a process may only use a reading taken earlier; a worker reads the
   clock for the ready time after it has created the retry.
   */
  ghost predicate Timely(w: World, s: Step, time: real) {
    match s
    case TriggerJob(_, now) => now <= time
    case RetryRun(_, now) => now <= time
    case ScheduleTick(_, _, now) => now <= time
    case RequeueOrphans(now) => now <= time
    case PromoteDelayed(now, _) => now <= time
    case Advance(t, now) =>
      && now <= time
      && (t < |w.tasks| && w.tasks[t].pc.Delaying? && w.tasks[t].pc.next < |w.runs| ==>
            w.runs[w.tasks[t].pc.next].createdAt <= now)
    case _ => true
  }

  /** `times[i]` is when step `i` happens. */
  ghost predicate TimedBehavior(cfg: Config, ws: seq<World>, ss: seq<Step>, times: seq<real>) {
    && Behavior(cfg, ws, ss) && |times| == |ss|
    && (forall i :: 0 <= i < |ss| ==> Timely(ws[i], ss[i], times[i]))
    && (forall i, k :: 0 <= i < k < |times| ==> times[i] <= times[k])
  }

  function RealMin(a: real, b: real): real { if a < b then a else b }

  /** The backoff of automatic retry `n`: `backoff_seconds` of its parent's attempt and the job's column. */
  ghost function DelayOf(cfg: Config, runs: seq<Run>, n: RunId): real
    requires n < |runs|
  {
    match runs[n].origin
    case AutoRetry(p) =>
      if p < |runs| && runs[p].job in cfg.jobs
      then BackoffSeconds(runs[p].attempt, cfg.jobs[runs[p].job].backoffSec) as real
      else 0.0
    case _ => 0.0
  }

  /** The earliest moment `n` may be on its way to the stream. */
  ghost function Earliest(cfg: Config, runs: seq<Run>, n: RunId): real
    requires n < |runs|
  {
    runs[n].createdAt + RealMin(DelayOf(cfg, runs, n), 60.0)
  }

  ghost predicate Retry(runs: seq<Run>, n: RunId) {
    n < |runs| && runs[n].origin.AutoRetry?
  }

  // ------------------------------------------------------- the invariant

  ghost predicate RetryRowOk(runs: seq<Run>, n: RunId)
    requires n < |runs|
  {
    runs[n].origin.AutoRetry? ==> runs[n].origin.parent < n && runs[n].status != Pending
  }

  ghost predicate RetryTaskOk(runs: seq<Run>, task: Task) {
    && task.run < |runs|
    && (task.pc.Sending? ==> !Retry(runs, task.pc.next))
    && (task.pc.Delaying? ==> task.pc.next < |runs| && runs[task.pc.next].origin == AutoRetry(task.run))
  }

  ghost predicate NotEarly(cfg: Config, w: World, time: real) {
    && InFlightKnown(w)
    && (forall n :: 0 <= n < |w.runs| ==> RetryRowOk(w.runs, n))
    && (forall t :: 0 <= t < |w.tasks| ==> RetryTaskOk(w.runs, w.tasks[t]))
    && (forall n :: n in w.delayed && Retry(w.runs, n) ==>
          w.delayed[n] >= w.runs[n].createdAt + DelayOf(cfg, w.runs, n))
    && (forall n :: n in w.outbox && Retry(w.runs, n) ==> time >= Earliest(cfg, w.runs, n))
    && (forall m :: 0 <= m < |w.stream| && Retry(w.runs, w.stream[m].run) ==>
          time >= Earliest(cfg, w.runs, w.stream[m].run))
  }

  lemma StableDelay(cfg: Config, runs: seq<Run>, runs': seq<Run>, n: RunId)
    requires Grows(runs, runs') && n < |runs| && RetryRowOk(runs, n)
    ensures DelayOf(cfg, runs', n) == DelayOf(cfg, runs, n) && Earliest(cfg, runs', n) == Earliest(cfg, runs, n)
  {}

  lemma StepRetryRows(cfg: Config, w: World, s: Step, w': World, n: RunId)
    requires Next(cfg, w, s, w') && n < |w'.runs| && Grows(w.runs, w'.runs)
    requires n < |w.runs| ==> RetryRowOk(w.runs, n)
    ensures RetryRowOk(w'.runs, n)
  {
    if n >= |w.runs| { StepBirth(cfg, w, s, w', n); }
  }

  lemma AdvanceRetryTask(cfg: Config, w: World, t: TaskId, now: real)
    requires t < |w.tasks| && RetryTaskOk(w.runs, w.tasks[t]) && w.tasks[t].pc != Executing && w.tasks[t].pc != Done
    requires forall n :: 0 <= n < |w.runs| ==> RetryRowOk(w.runs, n)
    ensures |AdvanceTask(cfg, w, t, now).tasks| == |w.tasks|
    ensures RetryTaskOk(AdvanceTask(cfg, w, t, now).runs, AdvanceTask(cfg, w, t, now).tasks[t])
  {
    AdvanceGrows(cfg, w, t, now);
    var pc := w.tasks[t].pc;
    if pc.FanOut? && pc.todo != [] {
      var (runs', id) := CreateDependencyRun(w.runs, pc.todo[0], now);
      if id.Some? && id.value < |w.runs| { assert RetryRowOk(w.runs, id.value); }
    }
  }

  lemma StepRetryTasks(cfg: Config, w: World, s: Step, w': World, t: TaskId)
    requires Next(cfg, w, s, w') && Grows(w.runs, w'.runs) && t < |w'.tasks| && InFlightKnown(w)
    requires forall n :: 0 <= n < |w.runs| ==> RetryRowOk(w.runs, n)
    requires forall u :: 0 <= u < |w.tasks| ==>
              RetryTaskOk(w.runs, w.tasks[u]) && TaskKnown(w.runs, w.stream, w.tasks[u])
    ensures RetryTaskOk(w'.runs, w'.tasks[t])
  {
    StepTasks(cfg, w, s, w');
    assert TaskSource(w, s, w', t);
    if t < |w.tasks| {
      assert RetryTaskOk(w.runs, w.tasks[t]) && TaskKnown(w.runs, w.stream, w.tasks[t]);
      if s.Advance? && s.task == t { AdvanceRetryTask(cfg, w, t, s.now); }
    } else if s.Abort? {
      assert RetryTaskOk(w.runs, w.tasks[s.task]);
    } else {
      assert Known(w.runs, w.stream[s.msg].run);
    }
  }

  /** The ready time a worker registers is at least the whole backoff after creation. */
  lemma StepReadyTime(cfg: Config, w: World, s: Step, w': World, time: real, n: RunId)
    requires Next(cfg, w, s, w') && Timely(w, s, time) && n in w'.delayed
    requires s.Advance? ==> RetryTaskOk(w.runs, w.tasks[s.task])
    ensures || (n in w.delayed && w'.delayed[n] == w.delayed[n])
            || (n < |w.runs| && w'.delayed[n] >= w.runs[n].createdAt + DelayOf(cfg, w.runs, n))
  {}

  lemma NotEarlyStep(cfg: Config, w: World, s: Step, w': World, before: real, time: real)
    requires Next(cfg, w, s, w') && NotEarly(cfg, w, before) && before <= time && Timely(w, s, time)
    ensures NotEarly(cfg, w', time)
  {
    StepGrows(cfg, w, s, w');
    InFlightKnownStep(cfg, w, s, w');
    forall n | 0 <= n < |w'.runs| ensures RetryRowOk(w'.runs, n) { StepRetryRows(cfg, w, s, w', n); }
    forall t | 0 <= t < |w'.tasks| ensures RetryTaskOk(w'.runs, w'.tasks[t]) { StepRetryTasks(cfg, w, s, w', t); }
    forall n | n in w'.delayed
      ensures (n in w.delayed && w'.delayed[n] == w.delayed[n])
              || (n < |w.runs| && w'.delayed[n] >= w.runs[n].createdAt + DelayOf(cfg, w.runs, n))
    {
      if s.Advance? { assert RetryTaskOk(w.runs, w.tasks[s.task]); }
      StepReadyTime(cfg, w, s, w', time, n);
    }
    StepOutbox(cfg, w, s, w');
    StepEntries(cfg, w, s, w');
    DispatchNotEarly(cfg, w, s, w', before, time);
  }

  lemma DispatchNotEarly(cfg: Config, w: World, s: Step, w': World, before: real, time: real)
    requires NotEarly(cfg, w, before) && before <= time && Timely(w, s, time)
    requires Grows(w.runs, w'.runs) && InFlightKnown(w') && StreamExtends(w.stream, w'.stream)
    requires forall n :: 0 <= n < |w'.runs| ==> RetryRowOk(w'.runs, n)
    requires forall t :: 0 <= t < |w'.tasks| ==> RetryTaskOk(w'.runs, w'.tasks[t])
    requires forall n :: n in w'.delayed ==>
               || (n in w.delayed && w'.delayed[n] == w.delayed[n])
               || (n < |w.runs| && w'.delayed[n] >= w.runs[n].createdAt + DelayOf(cfg, w.runs, n))
    requires forall r :: r in w'.outbox ==> r in w.outbox || OutboxSource(w, s, w', r)
    requires forall m :: |w.stream| <= m < |w'.stream| ==> EntrySource(w, s, w'.stream[m])
    ensures NotEarly(cfg, w', time)
  {
    forall n: RunId | n < |w.runs|
      ensures DelayOf(cfg, w'.runs, n) == DelayOf(cfg, w.runs, n)
      ensures Earliest(cfg, w'.runs, n) == Earliest(cfg, w.runs, n)
    {
      StableDelay(cfg, w.runs, w'.runs, n);
    }
    if s.Advance? && s.task < |w.tasks| {
      assert RetryTaskOk(w.runs, w.tasks[s.task]) && TaskKnown(w.runs, w.stream, w.tasks[s.task]);
    }
    forall n | n in w'.outbox && Retry(w'.runs, n) ensures time >= Earliest(cfg, w'.runs, n) {
      if n in w.outbox { assert Known(w.runs, n); } else { assert OutboxSource(w, s, w', n); }
    }
    forall m | 0 <= m < |w'.stream| && Retry(w'.runs, w'.stream[m].run)
      ensures time >= Earliest(cfg, w'.runs, w'.stream[m].run)
    {
      if m < |w.stream| {
        assert Known(w.runs, w.stream[m].run);
      } else {
        assert EntrySource(w, s, w'.stream[m]);
        if s.Publish? { assert Known(w.runs, s.run); }
      }
    }
    forall n | n in w'.delayed && Retry(w'.runs, n)
      ensures w'.delayed[n] >= w'.runs[n].createdAt + DelayOf(cfg, w'.runs, n)
    {
      if n in w.delayed { assert Known(w.runs, n); }
    }
  }

  lemma {:induction false} NeverEarly(cfg: Config, ws: seq<World>, ss: seq<Step>, times: seq<real>, i: nat)
    requires TimedBehavior(cfg, ws, ss, times) && 0 < i < |ws|
    ensures NotEarly(cfg, ws[i], times[i - 1])
  {
    assert StepAt(cfg, ws, ss, i - 1);
    if i == 1 {
      assert NotEarly(cfg, INIT, times[0]);
      NotEarlyStep(cfg, ws[0], ss[0], ws[1], times[0], times[0]);
    } else {
      NeverEarly(cfg, ws, ss, times, i - 1);
      NotEarlyStep(cfg, ws[i - 1], ss[i - 1], ws[i], times[i - 2], times[i - 1]);
    }
  }

  /**
   An automatic retry has no stream entry before created_at + min(backoff, orphan threshold).
   */
  lemma EarliestDispatch(cfg: Config, ws: seq<World>, ss: seq<Step>, times: seq<real>, i: nat, m: MsgId)
    requires TimedBehavior(cfg, ws, ss, times) && 0 < i < |ws|
    requires m < |ws[i].stream| && Retry(ws[i].runs, ws[i].stream[m].run)
    ensures times[i - 1] >= Earliest(cfg, ws[i].runs, ws[i].stream[m].run)
  {
    NeverEarly(cfg, ws, ss, times, i);
  }

  // ------------------------------------------------------- reachable at a time

  /** Some timed behaviour is in world `w` at clock time `time`. */
  ghost predicate TimedReach(cfg: Config, w: World, time: real) {
    exists ws, ss, times :: ReachedBy(cfg, w, time, ws, ss, times)
  }

  ghost predicate ReachedBy(cfg: Config, w: World, time: real, ws: seq<World>, ss: seq<Step>, times: seq<real>) {
    && TimedBehavior(cfg, ws, ss, times) && ws[|ss|] == w
    && (forall i :: 0 <= i < |times| ==> times[i] <= time)
  }

  lemma ReachStep(cfg: Config, w: World, time: real, s: Step, time': real)
    requires TimedReach(cfg, w, time) && time <= time' && Enabled(cfg, w, s) && Timely(w, s, time')
    ensures TimedReach(cfg, Apply(cfg, w, s), time')
  {
    var ws, ss, times :| ReachedBy(cfg, w, time, ws, ss, times);
    var w' := Apply(cfg, w, s);
    ExtendReach(cfg, w, s, w', time, time', ws, ss, times);
  }

  lemma ExtendReach(cfg: Config, w: World, s: Step, w': World, time: real, time': real,
      ws: seq<World>, ss: seq<Step>, times: seq<real>)
    requires ReachedBy(cfg, w, time, ws, ss, times) && time <= time' && Next(cfg, w, s, w') && Timely(w, s, time')
    ensures ReachedBy(cfg, w', time', ws + [w'], ss + [s], times + [time'])
  {
    var ws', ss', times' := ws + [w'], ss + [s], times + [time'];
    forall i | 0 <= i < |ss'| ensures StepAt(cfg, ws', ss', i) && Timely(ws'[i], ss'[i], times'[i]) {
      if i < |ss| {
        assert ws'[i + 1] == ws[i + 1] && StepAt(cfg, ws, ss, i) && Timely(ws[i], ss[i], times[i]);
      }
    }
  }
}
