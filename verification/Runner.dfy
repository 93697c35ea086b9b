/**
 `worker/runner.py` and `handle` in `worker/main.py` in their own form: one task's sequence of
 database calls and Redis commands. Every path through it is a path of the step system in which
 only that task moves, so what is proved of all behaviours holds for this code.
 */
module Runner {
  import opened Runs
  import opened Store
  import opened RetryPolicy
  import opened Protocol
  import Delayed

  /** The worlds task `t` passes through while nothing else moves. */
  ghost predicate TaskPath(cfg: Config, t: TaskId, ws: seq<World>, ss: seq<Step>) {
    && |ws| == |ss| + 1
    && (forall i :: 0 <= i < |ss| ==> StepAt(cfg, ws, ss, i))
    && (forall i :: 0 <= i < |ss| ==> (ss[i].Advance? || ss[i].Execute?) && ss[i].task == t)
  }

  lemma PathExtends(cfg: Config, t: TaskId, ws: seq<World>, ss: seq<Step>, s: Step)
    requires TaskPath(cfg, t, ws, ss) && Enabled(cfg, ws[|ss|], s) && (s.Advance? || s.Execute?) && s.task == t
    ensures TaskPath(cfg, t, ws + [Apply(cfg, ws[|ss|], s)], ss + [s])
  {
    var ws', ss' := ws + [Apply(cfg, ws[|ss|], s)], ss + [s];
    forall i | 0 <= i < |ss'|
      ensures StepAt(cfg, ws', ss', i) && (ss'[i].Advance? || ss'[i].Execute?) && ss'[i].task == t
    {
      if i < |ss| { assert StepAt(cfg, ws, ss, i); }
    }
  }

  /** Row `|before|` is the next attempt of `run`, and is registered for the end of its backoff. */
  ghost predicate RetryInserted(cfg: Config, before: seq<Run>, run: RunId, waiting: Delayed.Zset, readAt: real,
      after: seq<Run>, waiting': Delayed.Zset)
  {
    && run < |before| && |after| == |before| + 1
    && after[|before|].origin == AutoRetry(run) && after[|before|].status == Queued
    && after[|before|].job == before[run].job && after[|before|].attempt == before[run].attempt + 1
    && (before[run].job in cfg.jobs ==>
          waiting' == waiting[|before| :=
            readAt + BackoffSeconds(before[run].attempt, cfg.jobs[before[run].job].backoffSec) as real])
  }

  /** A failed run is retried exactly if it is not canceled and its attempt is within max_retries. */
  ghost predicate FailureOk(cfg: Config, before: seq<Run>, run: RunId, waiting: Delayed.Zset, readAt: real,
      after: seq<Run>, waiting': Delayed.Zset)
  {
    && run < |before|
    && (before[run].job in cfg.jobs ==>
          if before[run].status != Canceled && before[run].attempt <= cfg.jobs[before[run].job].maxRetries
          then RetryInserted(cfg, before, run, waiting, readAt, after, waiting')
          else |after| == |before| && waiting' == waiting)
  }

  lemma FinishKeepsRetry(cfg: Config, before: seq<Run>, run: RunId, waiting: Delayed.Zset, readAt: real,
      mid: seq<Run>, waiting': Delayed.Zset, result: Status)
    requires RetryInserted(cfg, before, run, waiting, readAt, mid, waiting')
    ensures RetryInserted(cfg, before, run, waiting, readAt, FinishRun(mid, run, result), waiting')
  {}

  class TaskRunner {
    const cfg: Config
    const t: TaskId
    const msg: MsgId
    const run: RunId
    const allowRunning: bool

    var runs: seq<Run>
    var stream: seq<Entry>
    var delayed: Delayed.Zset

    ghost var ws: seq<World>
    ghost var ss: seq<Step>

    ghost predicate Valid()
      reads this
    {
      && TaskPath(cfg, t, ws, ss)
      && World(runs, stream, delayed, Now().outbox, Now().tasks, Now().dead) == Now()
      && Live(Now(), t) && Now().tasks[t].msg == msg && Now().tasks[t].run == run < |runs|
      && Now().tasks[t].allowRunning == allowRunning
    }

    ghost function Now(): World
      reads this
    {
      if |ws| == |ss| + 1 then ws[|ss|] else INIT
    }

    ghost predicate At(pc: Pc)
      reads this
    {
      t < |Now().tasks| && Now().tasks[t].pc == pc
    }

    /** A delivered task that has not begun. */
    constructor (cfg: Config, w: World, t: TaskId)
      requires Live(w, t) && w.tasks[t].run < |w.runs|
      ensures Valid() && ws == [w] && ss == [] && this.cfg == cfg && this.t == t
      ensures run == w.tasks[t].run && msg == w.tasks[t].msg
    {
      this.cfg, this.t, msg, run, allowRunning := cfg, t, w.tasks[t].msg, w.tasks[t].run, w.tasks[t].allowRunning;
      runs, stream, delayed := w.runs, w.stream, w.delayed;
      ws, ss := [w], [];
    }

    /** Record that the table, stream and delayed set moved by one step of the task. */
    ghost method Record(s: Step)
      requires TaskPath(cfg, t, ws, ss) && Enabled(cfg, Now(), s) && (s.Advance? || s.Execute?) && s.task == t
      modifies this`ws, this`ss
      ensures TaskPath(cfg, t, ws, ss) && Now() == Apply(cfg, old(Now()), s)
      ensures ws[0] == old(ws[0])
    {
      PathExtends(cfg, t, ws, ss, s);
      ws, ss := ws + [Apply(cfg, Now(), s)], ss + [s];
    }

    // ------------------------------------------------------- one database call or Redis command each

    method Claim() returns (claimed: bool)
      requires Valid() && At(Start)
      modifies this
      ensures Valid() && ws[0] == old(ws[0])
      ensures claimed == CanClaim(old(runs), run, allowRunning)
      ensures At(if claimed then Executing else Acking) && runs == ClaimRun(old(runs), run, allowRunning)
      ensures delayed == old(delayed) && stream == old(stream)
    {
      claimed := Claimable(runs[run].status, allowRunning);
      Record(Advance(t, 0.0));
      if claimed { runs := SetStatus(runs, run, Running); }
    }

    /** The executor returns; nothing is written. */
    method Execute(result: Outcome)
      requires Valid() && At(Executing)
      modifies this`ws, this`ss
      ensures Valid() && ws[0] == old(ws[0]) && At(Checking(result))
    {
      Record(Step.Execute(t, result));
    }

    method CheckCanceled(result: Outcome) returns (canceled: bool)
      requires Valid() && At(Checking(result))
      modifies this`ws, this`ss
      ensures Valid() && ws[0] == old(ws[0]) && canceled == IsRunCanceled(runs, run)
      ensures At(if canceled then Acking
                 else if result != Succeeded && ShouldRetry(runs[run].attempt, MaxRetries(cfg, runs[run].job))
                   then Retrying(result)
                 else Finishing(result))
    {
      canceled := runs[run].status == Canceled;
      Record(Advance(t, 0.0));
    }

    method Finish(result: Outcome)
      requires Valid() && At(Finishing(result))
      modifies this
      ensures Valid() && ws[0] == old(ws[0]) && At(if result == Succeeded then Reading else Acking)
      ensures runs == FinishRun(old(runs), run, result) && delayed == old(delayed)
    {
      Record(Advance(t, 0.0));
      if runs[run].status != Canceled { runs := SetStatus(runs, run, result); }
    }

    method CreateRetry(result: Failure, now: real) returns (id: RunId)
      requires Valid() && At(Retrying(result))
      modifies this
      ensures Valid() && ws[0] == old(ws[0]) && At(Delaying(id, result))
      ensures id == |old(runs)| && runs == old(runs) + [RetryRow(old(runs), run, now)] && delayed == old(delayed)
    {
      Record(Advance(t, now));
      id := |runs|;
      runs := runs + [RetryRow(runs, run, now)];
    }

    method ScheduleDelayed(id: RunId, readyAt: real, ghost result: Failure, ghost now: real)
      requires Valid() && At(Delaying(id, result)) && readyAt == now + RetryDelay(cfg, runs[run])
      modifies this
      ensures Valid() && ws[0] == old(ws[0]) && At(Finishing(result))
      ensures delayed == old(delayed)[id := readyAt] && runs == old(runs)
    {
      Record(Advance(t, now));
      delayed := delayed[id := readyAt];
    }

    method ReadDependents() returns (ready: seq<JobId>)
      requires Valid() && At(Reading)
      modifies this`ws, this`ss
      ensures Valid() && ws[0] == old(ws[0]) && At(FanOut(ready))
      ensures ready == DependentsReady(cfg, runs, runs[run].job)
    {
      ready := DependentsReady(cfg, runs, runs[run].job);
      Record(Advance(t, 0.0));
    }

    method CreateDependency(j: JobId, now: real, ghost todo: seq<JobId>) returns (id: Option<RunId>)
      requires Valid() && At(FanOut([j] + todo))
      modifies this
      ensures Valid() && ws[0] == old(ws[0]) && At(if id.Some? then Sending(id.value, todo) else FanOut(todo))
      ensures (runs, id) == CreateDependencyRun(old(runs), j, now)
    {
      var res := CreateDependencyRun(runs, j, now);
      assert ([j] + todo)[1..] == todo;
      Record(Advance(t, now));
      runs, id := res.0, res.1;
    }

    method Enqueue(id: RunId, ghost todo: seq<JobId>)
      requires Valid() && At(Sending(id, todo))
      modifies this
      ensures Valid() && ws[0] == old(ws[0]) && At(FanOut(todo))
      ensures runs == old(runs) && stream == old(stream) + [Entry(id, Unread)]
    {
      Record(Advance(t, 0.0));
      stream := stream + [Entry(id, Unread)];
    }

    method AckAndDelete()
      requires Valid() && At(Acking)
      modifies this
      ensures Valid() && ws[0] == old(ws[0]) && At(Done)
      ensures runs == old(runs) && delayed == old(delayed)
      ensures stream == Mark(Mark(old(stream), msg, Acked), msg, Deleted)
    {
      Record(Advance(t, 0.0));
      stream := Mark(stream, msg, Acked);
      Record(Advance(t, 0.0));
      stream := Mark(stream, msg, Deleted);
    }

    // ------------------------------------------------------- the program

    /** One pass of the fan-out loop. */
    method TriggerDependent(j: JobId, ghost todo: seq<JobId>)
      requires Valid() && At(FanOut([j] + todo)) && runs[run].status == Succeeded
      modifies this
      ensures Valid() && ws[0] == old(ws[0]) && At(FanOut(todo)) && runs[run].status == Succeeded
    {
      var now: real := *;
      var id := CreateDependency(j, now, todo);
      if id.Some? { Enqueue(id.value, todo); }
    }

    ghost method LeaveFanOut()
      requires Valid() && At(FanOut([]))
      modifies this`ws, this`ss
      ensures Valid() && ws[0] == old(ws[0]) && At(Acking)
    {
      Record(Advance(t, 0.0));
    }

    method TriggerDependents(dependents: seq<JobId>)
      requires Valid() && At(FanOut(dependents)) && runs[run].status == Succeeded
      modifies this
      ensures Valid() && ws[0] == old(ws[0]) && At(Acking) && runs[run].status == Succeeded
    {
      for i := 0 to |dependents|
        invariant Valid() && ws[0] == old(ws[0]) && At(FanOut(dependents[i..]))
        invariant runs[run].status == Succeeded
      {
        assert dependents[i..] == [dependents[i]] + dependents[i + 1..];
        TriggerDependent(dependents[i], dependents[i + 1..]);
      }
      assert dependents[|dependents|..] == [];
      LeaveFanOut();
    }

    /** `_on_success`: finish first, then fan out to each dependent that is ready. */
    method OnSuccess()
      requires Valid() && At(Checking(Succeeded))
      modifies this
      ensures Valid() && ws[0] == old(ws[0]) && At(Acking)
      ensures runs[run].status == if old(runs)[run].status == Canceled then Canceled else Succeeded
    {
      var canceled := CheckCanceled(Succeeded);
      if canceled { return; }
      Finish(Succeeded);
      var dependents := ReadDependents();
      TriggerDependents(dependents);
    }

    /** Insert the next attempt and register it for when its backoff has passed. */
    method RegisterRetry(result: Failure, now: real)
      requires Valid() && At(Retrying(result))
      modifies this
      ensures Valid() && ws[0] == old(ws[0]) && At(Finishing(result))
      ensures RetryInserted(cfg, old(runs), run, old(delayed), now, runs, delayed) && runs[run] == old(runs)[run]
    {
      var delay := RetryDelay(cfg, runs[run]);
      var created: real := *;
      var id := CreateRetry(result, created);
      ScheduleDelayed(id, now + delay, result, now);
    }

    /** `_on_failure`: the retry is created and registered before the run is finished. */
    method OnFailure(result: Failure) returns (readAt: real)
      requires Valid() && At(Checking(result))
      modifies this
      ensures Valid() && ws[0] == old(ws[0]) && At(Acking)
      ensures runs[run].status == if old(runs)[run].status == Canceled then Canceled else result
      // `readAt` is the clock reading that the ready time of a retry is computed from.
      ensures FailureOk(cfg, old(runs), run, old(delayed), readAt, runs, delayed)
    {
      readAt := *;
      var canceled := CheckCanceled(result);
      if canceled { return; }
      if ShouldRetry(runs[run].attempt, MaxRetries(cfg, runs[run].job)) {
        RegisterRetry(result, readAt);
        FinishKeepsRetry(cfg, old(runs), run, old(delayed), readAt, runs, delayed, result);
      }
      Finish(result);
    }

    /** `process_run` */
    method ProcessRun(result: Outcome) returns (claimed: bool)
      requires Valid() && At(Start)
      modifies this
      ensures Valid() && ws[0] == old(ws[0]) && At(Acking)
      ensures claimed == CanClaim(old(runs), run, allowRunning)
      ensures claimed ==> runs[run].status == result
      ensures !claimed ==> runs == old(runs) && delayed == old(delayed) && stream == old(stream)
    {
      claimed := Claim();
      if !claimed { return; }
      Execute(result);
      if result == Succeeded { OnSuccess(); } else { var readAt := OnFailure(result); }
    }

    /**
     `handle`: left alone, the task claims the run or finds it taken, brings a claimed run to the
     executor's result, and removes its stream entry; and all of it is a path of the step system.
     */
    method Handle(result: Outcome)
      requires Valid() && At(Start)
      modifies this
      ensures Valid() && ws[0] == old(ws[0]) && At(Done)
      ensures CanClaim(old(runs), run, allowRunning) ==> runs[run].status == result
      ensures !CanClaim(old(runs), run, allowRunning) ==> runs == old(runs) && delayed == old(delayed)
      ensures msg < |stream| ==> stream[msg].state == Deleted
    {
      var claimed := ProcessRun(result);
      AckAndDelete();
    }
  }
}
