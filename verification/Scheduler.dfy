/**
 `schedule_due_jobs`: one transaction per poll that turns due ticks into QUEUED runs, and
 what it amounts to over many polls, restarts, clocks and overlapping leaders.
 */
module Scheduler {
  import opened Collections
  import opened Runs
  import opened Cron

  datatype JobRow = JobRow(id: JobId, enabled: bool, schedule: Schedule, createdAt: int, last: Option<int>)

  /** The unique constraint on (job_id, scheduled_for). */
  ghost predicate UniqueTicks(runs: seq<Run>) {
    forall r, q :: 0 <= r < q < |runs| && runs[r].origin.Scheduled? && runs[q].job == runs[r].job ==>
      runs[q].origin != runs[r].origin
  }

  /** Anchor on the last tick scheduled, or on the creation time. */
  function Anchor(job: JobRow): int {
    if job.last.Some? then job.last.value else job.createdAt
  }

  /** What the query selects. */
  predicate IsScheduled(job: JobRow) {
    job.enabled && !job.schedule.Manually?
  }

  function ScheduledRun(job: JobId, tick: int, now: int): Run {
    Run(job, Scheduled(tick), Queued, 1, now as real)
  }

  ghost predicate ValidRow(job: JobRow) {
    Valid(job.schedule)
  }

  /** The tick a poll finds due for a job. */
  ghost function DueFor(job: JobRow, now: int): Option<int>
    requires ValidRow(job)
  {
    if IsScheduled(job) then DueSpec(job.schedule, Anchor(job), now) else None
  }

  /** The job row after a poll. */
  ghost function Polled(job: JobRow, now: int): JobRow
    requires ValidRow(job)
  {
    match DueFor(job, now)
    case None => job
    case Some(tick) => job.(last := Some(tick))
  }

  /** The run table after one pass of the loop. */
  ghost function ScheduleJob(job: JobRow, runs: seq<Run>, now: int): seq<Run>
    requires ValidRow(job)
  {
    match DueFor(job, now)
    case None => runs
    case Some(tick) =>
      if TickTaken(runs, job.id, tick) then runs else runs + [ScheduledRun(job.id, tick, now)]
  }

  ghost predicate ValidRows(jobs: seq<JobRow>) {
    forall i :: 0 <= i < |jobs| ==> ValidRow(jobs[i])
  }

  /** The run table after the first `n` jobs. */
  ghost function RunsAfter(jobs: seq<JobRow>, runs: seq<Run>, now: int, n: nat): seq<Run>
    requires ValidRows(jobs) && n <= |jobs|
  {
    if n == 0 then runs else ScheduleJob(jobs[n - 1], RunsAfter(jobs, runs, now, n - 1), now)
  }

  // ------------------------------------------------------- a poll, in terms of the rows alone

  /** The job is enabled and has `t` as its latest fire time after its last tick, or after its creation. */
  ghost predicate IsDue(job: JobRow, now: int, t: int) {
    && job.enabled
    && LatestFire(job.schedule, if job.last.Some? then job.last.value else job.createdAt, now, t)
  }

  /** What a poll does to job `i`: a due job is anchored at its tick, which has a run; any other keeps its row. */
  ghost predicate JobServed(job: JobRow, now: int, job': JobRow, runs': seq<Run>) {
    && (forall t :: IsDue(job, now, t) ==> job' == job.(last := Some(t)) && TickTaken(runs', job.id, t))
    && ((forall t :: !IsDue(job, now, t)) ==> job' == job)
  }

  ghost predicate RowFor(job: JobRow, now: int, t: int, row: Run) {
    IsDue(job, now, t) && row == Run(job.id, Scheduled(t), Queued, 1, now as real)
  }

  /** The row is the QUEUED first attempt of some due job's tick. */
  ghost predicate RowServed(jobs: seq<JobRow>, now: int, row: Run) {
    exists i, t :: 0 <= i < |jobs| && RowFor(jobs[i], now, t, row)
  }

  ghost predicate PollOk(jobs: seq<JobRow>, runs: seq<Run>, now: int, jobs': seq<JobRow>, runs': seq<Run>) {
    && |jobs'| == |jobs| && runs <= runs'
    && (forall i :: 0 <= i < |jobs| ==> JobServed(jobs[i], now, jobs'[i], runs'))
    && (forall r :: |runs| <= r < |runs'| ==> RowServed(jobs, now, runs'[r]))
    && (UniqueTicks(runs) ==> UniqueTicks(runs'))
  }

  class SchedulerSession {
    var jobs: seq<JobRow>
    var runs: seq<Run>

    constructor (jobs: seq<JobRow>, runs: seq<Run>)
      ensures this.jobs == jobs && this.runs == runs
    {
      this.jobs, this.runs := jobs, runs;
    }

    /** `schedule_due_jobs`: every due job gets its latest due tick once, and its anchor moves there. */
    method ScheduleDueJobs(now: int) returns (enqueued: seq<RunId>)
      requires ValidRows(jobs)
      modifies this
      ensures PollOk(old(jobs), old(runs), now, jobs, runs)
      ensures |jobs| == |old(jobs)|
      ensures forall i :: 0 <= i < |jobs| ==> jobs[i] == Polled(old(jobs)[i], now)
      ensures runs == RunsAfter(old(jobs), old(runs), now, |old(jobs)|)
      ensures |enqueued| == |runs| - |old(runs)|
      ensures forall i :: 0 <= i < |enqueued| ==> enqueued[i] == |old(runs)| + i
    {
      enqueued := [];
      for i := 0 to |jobs|
        invariant |jobs| == |old(jobs)|
        invariant forall k :: 0 <= k < |jobs| ==> jobs[k] == if k < i then Polled(old(jobs)[k], now) else old(jobs)[k]
        invariant runs == RunsAfter(old(jobs), old(runs), now, i)
        invariant |enqueued| == |runs| - |old(runs)|
        invariant forall k :: 0 <= k < |enqueued| ==> enqueued[k] == |old(runs)| + k
      {
        var job := jobs[i];
        if !IsScheduled(job) { continue; }
        var tick := DueTick(job.schedule, Anchor(job), now);
        if tick.None? { continue; }
        if !TickTaken(runs, job.id, tick.value) {
          enqueued := enqueued + [|runs|];
          runs := runs + [ScheduledRun(job.id, tick.value, now)];
        }
        jobs := jobs[i := job.(last := tick)];
      }
      PollInserts(old(jobs), old(runs), now, jobs);
    }
  }

  lemma DueExact(job: JobRow, now: int, t: int)
    requires ValidRow(job)
    ensures DueFor(job, now) == Some(t) <==> IsDue(job, now, t)
  {
    DueIsLatestFire(job.schedule, Anchor(job), now);
  }

  lemma RowKept(runs: seq<Run>, runs': seq<Run>, job: JobId, tick: int)
    requires runs <= runs' && TickTaken(runs, job, tick)
    ensures TickTaken(runs', job, tick)
  {
    var r :| 0 <= r < |runs| && runs[r].job == job && runs[r].origin == Scheduled(tick);
    assert runs'[r] == runs[r];
  }

  /** One pass of the loop. */
  lemma PassServes(job: JobRow, runs: seq<Run>, now: int)
    requires ValidRow(job)
    ensures var after := ScheduleJob(job, runs, now);
            && runs <= after && |after| <= |runs| + 1
            && (DueFor(job, now).Some? ==> TickTaken(after, job.id, DueFor(job, now).value))
            && (|after| > |runs| ==> DueFor(job, now).Some? && RowFor(job, now, DueFor(job, now).value, after[|runs|]))
            && (UniqueTicks(runs) ==> UniqueTicks(after))
  {
    if DueFor(job, now).Some? {
      var t := DueFor(job, now).value;
      DueExact(job, now, t);
      if !TickTaken(runs, job.id, t) {
        assert ScheduleJob(job, runs, now)[|runs|] == Run(job.id, Scheduled(t), Queued, 1, now as real);
      }
    }
  }

  lemma {:induction false} RunsAfterServe(jobs: seq<JobRow>, runs: seq<Run>, now: int, n: nat)
    requires ValidRows(jobs) && n <= |jobs|
    ensures runs <= RunsAfter(jobs, runs, now, n)
    ensures forall i :: 0 <= i < n && DueFor(jobs[i], now).Some? ==>
              TickTaken(RunsAfter(jobs, runs, now, n), jobs[i].id, DueFor(jobs[i], now).value)
    ensures forall r :: |runs| <= r < |RunsAfter(jobs, runs, now, n)| ==>
              RowServed(jobs, now, RunsAfter(jobs, runs, now, n)[r])
    ensures UniqueTicks(runs) ==> UniqueTicks(RunsAfter(jobs, runs, now, n))
  {
    if n > 0 {
      RunsAfterServe(jobs, runs, now, n - 1);
      var before, after := RunsAfter(jobs, runs, now, n - 1), RunsAfter(jobs, runs, now, n);
      PassServes(jobs[n - 1], before, now);
      forall i | 0 <= i < n - 1 && DueFor(jobs[i], now).Some?
        ensures TickTaken(after, jobs[i].id, DueFor(jobs[i], now).value)
      {
        RowKept(before, after, jobs[i].id, DueFor(jobs[i], now).value);
      }
      forall r | |runs| <= r < |after| ensures RowServed(jobs, now, after[r]) {
        if r < |before| {
          assert after[r] == before[r];
        } else {
          assert RowFor(jobs[n - 1], now, DueFor(jobs[n - 1], now).value, after[r]);
        }
      }
    }
  }

  /**
   A poll serves exactly the enabled cron and interval jobs with a fire time in (last tick or
   creation, now]: each is anchored at the latest one, which then has a run, and what it inserts
   are QUEUED first attempts of such ticks, never a tick twice. Every other job keeps its row and
   gets no run.
   */
  lemma {:induction false} PollInserts(jobs: seq<JobRow>, runs: seq<Run>, now: int, jobs': seq<JobRow>)
    requires ValidRows(jobs) && |jobs'| == |jobs| && forall i :: 0 <= i < |jobs| ==> jobs'[i] == Polled(jobs[i], now)
    ensures PollOk(jobs, runs, now, jobs', RunsAfter(jobs, runs, now, |jobs|))
  {
    RunsAfterServe(jobs, runs, now, |jobs|);
    var runs' := RunsAfter(jobs, runs, now, |jobs|);
    forall i | 0 <= i < |jobs| ensures JobServed(jobs[i], now, jobs'[i], runs') {
      forall t ensures DueFor(jobs[i], now) == Some(t) <==> IsDue(jobs[i], now, t) { DueExact(jobs[i], now, t); }
    }
  }

  // ------------------------------------------------------- many polls of one job

  /** The tick anchor after polling at the given instants, in that order. */
  ghost function PollAll(sch: Schedule, anchor: int, nows: seq<int>): int
    requires Valid(sch)
  {
    if nows == [] then anchor
    else
      var a := PollAll(sch, anchor, nows[..|nows| - 1]);
      match DueSpec(sch, a, nows[|nows| - 1])
      case None => a
      case Some(tick) => tick
  }

  /** The ticks those polls created runs for. */
  ghost function TicksOf(sch: Schedule, anchor: int, nows: seq<int>): seq<int>
    requires Valid(sch)
  {
    if nows == [] then []
    else
      var front := nows[..|nows| - 1];
      TicksOf(sch, anchor, front)
      + match DueSpec(sch, PollAll(sch, anchor, front), nows[|nows| - 1])
        case None => []
        case Some(tick) => [tick]
  }

  ghost function MaxOf(nows: seq<int>): int
    requires nows != []
  {
    if |nows| == 1 then nows[0] else Max(MaxOf(nows[..|nows| - 1]), nows[|nows| - 1])
  }

  /** Polls at any instants in any order leave the anchor at the latest fire time up to their maximum. */
  lemma {:induction false} PollsCollapse(sch: Schedule, created: int, nows: seq<int>)
    requires Valid(sch) && nows != []
    ensures PollAll(sch, created, nows) == Latest(sch, created, MaxOf(nows))
  {
    var n := |nows| - 1;
    var front, now := nows[..n], nows[n];
    if n == 0 {
      assert front == [];
    } else {
      PollsCollapse(sch, created, front);
      if MaxOf(front) <= now {
        LatestRestart(sch, created, MaxOf(front), now);
      } else {
        LatestStays(sch, created, MaxOf(front), now);
      }
    }
  }

  /** Each tick created is later than every one before it. */
  lemma {:induction false} TicksIncrease(sch: Schedule, created: int, nows: seq<int>)
    requires Valid(sch)
    ensures forall i, k :: 0 <= i < k < |TicksOf(sch, created, nows)| ==>
              TicksOf(sch, created, nows)[i] < TicksOf(sch, created, nows)[k]
    ensures forall i :: 0 <= i < |TicksOf(sch, created, nows)| ==>
              created < TicksOf(sch, created, nows)[i] <= PollAll(sch, created, nows)
    ensures created <= PollAll(sch, created, nows)
  {
    if nows != [] { TicksIncrease(sch, created, nows[..|nows| - 1]); }
  }

  // ------------------------------------------------------- overlapping leaders

  /** One job as several leaders see it: its anchor, the ticks in the run table, and what each has read. */
  datatype Overlap = Overlap(last: Option<int>, ticks: seq<int>, reading: map<nat, int>)

  /** A leader reads the job and computes a due tick; later it commits, whatever happened in between. */
  datatype Event = Read(leader: nat, now: int) | Commit(leader: nat)

  ghost function LastOr(last: Option<int>, created: int): int {
    if last.Some? then last.value else created
  }

  ghost function Occur(sch: Schedule, created: int, o: Overlap, e: Event): Overlap
    requires Valid(sch)
  {
    match e
    case Read(l, now) =>
      (match DueSpec(sch, LastOr(o.last, created), now)
       case None => o.(reading := o.reading - {l})
       case Some(tick) => o.(reading := o.reading[l := tick]))
    case Commit(l) =>
      if l !in o.reading then o
      else
        var tick := o.reading[l];
        Overlap(Some(tick), if tick in o.ticks then o.ticks else o.ticks + [tick], o.reading - {l})
  }

  ghost function OccurAll(sch: Schedule, created: int, es: seq<Event>): Overlap
    requires Valid(sch)
  {
    if es == [] then Overlap(None, [], map[])
    else Occur(sch, created, OccurAll(sch, created, es[..|es| - 1]), es[|es| - 1])
  }

  /** A fire time reached from the creation time. */
  ghost predicate Tick(sch: Schedule, created: int, t: int) {
    exists k: nat :: k > 0 && Orbit(sch, created, k) == Some(t)
  }

  ghost predicate OverlapOk(sch: Schedule, created: int, o: Overlap) {
    && (o.last.Some? ==> Tick(sch, created, o.last.value) && o.last.value in o.ticks)
    && (forall i :: 0 <= i < |o.ticks| ==> Tick(sch, created, o.ticks[i]))
    && (forall l :: l in o.reading ==> Tick(sch, created, o.reading[l]))
    && (forall i, k :: 0 <= i < k < |o.ticks| ==> o.ticks[i] != o.ticks[k])
  }

  lemma {:induction false} OrbitCompose(sch: Schedule, base: int, i: nat, k: nat)
    requires Orbit(sch, base, i).Some?
    ensures Orbit(sch, Orbit(sch, base, i).value, k) == Orbit(sch, base, i + k)
  {
    if k > 0 { OrbitCompose(sch, base, i, k - 1); }
  }

  lemma DueIsTick(sch: Schedule, created: int, last: Option<int>, now: int)
    requires Valid(sch) && (last.Some? ==> Tick(sch, created, last.value))
    ensures DueSpec(sch, LastOr(last, created), now).Some? ==>
              Tick(sch, created, DueSpec(sch, LastOr(last, created), now).value)
  {
    var base := LastOr(last, created);
    var k := LatestOnOrbit(sch, base, now);
    var i: nat := 0;
    if last.Some? { i :| i > 0 && Orbit(sch, created, i) == Some(base); }
    OrbitCompose(sch, created, i, k);
  }

  /**
   Whatever leaders overlap and however their reads and commits interleave: no tick gets two
   runs, and every run's tick and every anchor is a fire time on the orbit of the creation time.
   */
  lemma {:induction false} OverlapSafe(sch: Schedule, created: int, es: seq<Event>)
    requires Valid(sch)
    ensures OverlapOk(sch, created, OccurAll(sch, created, es))
  {
    if es != [] {
      var o := OccurAll(sch, created, es[..|es| - 1]);
      OverlapSafe(sch, created, es[..|es| - 1]);
      if es[|es| - 1].Read? { DueIsTick(sch, created, o.last, es[|es| - 1].now); }
    }
  }

  /** A stale commit takes the anchor back to the tick it was computed for. */
  lemma {:induction false} StaleCommitRegresses(sch: Schedule, created: int, early: int, late: int)
    requires Valid(sch) && early <= late && Latest(sch, created, early) > created
    ensures var o := OccurAll(sch, created, [Read(1, early), Read(2, late), Commit(2), Commit(1)]);
            && o.last == Some(Latest(sch, created, early))
            && Latest(sch, created, late) in o.ticks && Latest(sch, created, early) in o.ticks
  {
    FourEvents(sch, created, Read(1, early), Read(2, late), Commit(2), Commit(1));
    var a, b := Latest(sch, created, early), Latest(sch, created, late);
    LatestRestart(sch, created, early, late);
    var o1 := Occur(sch, created, Overlap(None, [], map[]), Read(1, early));
    assert o1 == Overlap(None, [], map[1 := a]);
    var o2 := Occur(sch, created, o1, Read(2, late));
    assert o2 == Overlap(None, [], map[1 := a, 2 := b]);
    var o3 := Occur(sch, created, o2, Commit(2));
    assert o3 == Overlap(Some(b), [b], map[1 := a]);
  }

  lemma {:induction false} FourEvents(sch: Schedule, created: int, a: Event, b: Event, c: Event, d: Event)
    requires Valid(sch)
    ensures OccurAll(sch, created, [a, b, c, d])
         == Occur(sch, created, Occur(sch, created, Occur(sch, created,
              Occur(sch, created, Overlap(None, [], map[]), a), b), c), d)
  {
    assert [a, b, c, d][..3] == [a, b, c] && [a, b, c][..2] == [a, b] && [a, b][..1] == [a] && [a][..0] == [];
    assert OccurAll(sch, created, [a]) == Occur(sch, created, Overlap(None, [], map[]), a);
    assert OccurAll(sch, created, [a, b]) == Occur(sch, created, OccurAll(sch, created, [a]), b);
  }

  /**
   A stale commit may take the anchor back, but the next undisturbed poll puts it at the latest
   due tick again (or leaves it, if it is ahead of this leader's clock), and if any tick is due
   the anchor's tick has a run.
   */
  lemma {:induction false} NextPollRestores(sch: Schedule, created: int, es: seq<Event>, leader: nat, now: int)
    requires Valid(sch)
    ensures var o := OccurAll(sch, created, es);
            var o' := Occur(sch, created, Occur(sch, created, o, Read(leader, now)), Commit(leader));
            && LastOr(o'.last, created) == Max(LastOr(o.last, created), Latest(sch, created, now))
            && (created < Latest(sch, created, now) ==> LastOr(o'.last, created) in o'.ticks)
  {
    OverlapSafe(sch, created, es);
    var o := OccurAll(sch, created, es);
    var k: nat := 0;
    if o.last.Some? { k :| k > 0 && Orbit(sch, created, k) == Some(o.last.value); }
    LatestFromOrbit(sch, created, k, now);
  }
}
