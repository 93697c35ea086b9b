/**
 `worker/store.py`: each function is one short transaction on `job_runs`.

 The functions give the table after the transaction; the class is the code's own form.
 */
module Store {
  import opened Collections
  import opened Runs

  /** The WHERE clause of the claim's conditional UPDATE. */
  predicate Claimable(s: Status, allowRunning: bool) {
    s.Pending? || s.Queued? || (allowRunning && s.Running?)
  }

  function SetStatus(runs: seq<Run>, r: RunId, s: Status): seq<Run>
    requires r < |runs|
  {
    runs[r := runs[r].(status := s)]
  }

  predicate CanClaim(runs: seq<Run>, r: RunId, allowRunning: bool) {
    r < |runs| && Claimable(runs[r].status, allowRunning)
  }

  function ClaimRun(runs: seq<Run>, r: RunId, allowRunning: bool): seq<Run> {
    if CanClaim(runs, r, allowRunning) then SetStatus(runs, r, Running) else runs
  }

  function CancelRun(runs: seq<Run>, r: RunId): seq<Run> {
    if r < |runs| && Active(runs[r].status) then SetStatus(runs, r, Canceled) else runs
  }

  predicate IsRunCanceled(runs: seq<Run>, r: RunId) {
    r < |runs| && runs[r].status == Canceled
  }

  function FinishRun(runs: seq<Run>, r: RunId, result: Status): seq<Run> {
    if r < |runs| && runs[r].status != Canceled then SetStatus(runs, r, result) else runs
  }

  /** The row `create_retry_run(job_id, attempt + 1)` inserts for the failed run `parent`. */
  function RetryRow(runs: seq<Run>, parent: RunId, now: real): Run
    requires parent < |runs|
  {
    Run(runs[parent].job, AutoRetry(parent), Queued, runs[parent].attempt + 1, now)
  }

  /** The tests of the loop in `dependents_ready`. */
  predicate Ready(cfg: Config, runs: seq<Run>, d: JobId) {
    && d in cfg.jobs
    && (cfg.jobs[d].enabled || PendingRun(runs, d).Some?)
    && !HasDispatched(runs, d)
    && AllDependenciesSucceeded(cfg.edges, runs, d)
  }

  function ReadyAmong(cfg: Config, runs: seq<Run>, s: seq<JobId>): (r: seq<JobId>)
    ensures forall d :: d in r <==> d in s && Ready(cfg, runs, d)
  {
    if s == [] then []
    else ReadyAmong(cfg, runs, s[..|s| - 1]) + if Ready(cfg, runs, s[|s| - 1]) then [s[|s| - 1]] else []
  }

  function DependentsReady(cfg: Config, runs: seq<Run>, j: JobId): (r: seq<JobId>)
    ensures forall d :: d in r <==> Edge(d, j) in cfg.edges && Ready(cfg, runs, d)
  {
    ReadyAmong(cfg, runs, Distinct(Dependents(cfg.edges, j)))
  }

  /** A row of job `j` with status `s`. */
  ghost predicate Has(runs: seq<Run>, j: JobId, s: Status) {
    exists r :: 0 <= r < |runs| && runs[r].job == j && runs[r].status == s
  }

  /**
   A dependent is ready exactly if the job exists, is enabled or has a PENDING run, has no QUEUED
   or RUNNING run, and each of its dependencies has a SUCCEEDED one.
   */
  lemma ReadyExact(cfg: Config, runs: seq<Run>, j: JobId, d: JobId)
    ensures d in DependentsReady(cfg, runs, j) <==>
              && Edge(d, j) in cfg.edges && d in cfg.jobs && (cfg.jobs[d].enabled || Has(runs, d, Pending))
              && !Has(runs, d, Queued) && !Has(runs, d, Running)
              && forall e :: Edge(d, e) in cfg.edges ==> Has(runs, e, Succeeded)
  {
    assert HasDispatched(runs, d) <==> Has(runs, d, Queued) || Has(runs, d, Running);
    assert forall e :: HasSucceeded(runs, e) <==> Has(runs, e, Succeeded);
    assert forall e :: e in Deps(cfg.edges, d) <==> Edge(d, e) in cfg.edges;
    assert PendingRun(runs, d).Some? <==> Has(runs, d, Pending);
  }

  /** The table and the returned id of `create_dependency_run`. */
  function CreateDependencyRun(runs: seq<Run>, j: JobId, now: real): (res: (seq<Run>, Option<RunId>))
    // It never leaves the job with two dispatched runs, and what it returns is QUEUED.
    ensures res.1.None? ==> res.0 == runs
    ensures res.1.Some? ==>
      && res.1.value < |res.0| && res.0[res.1.value].job == j && res.0[res.1.value].status == Queued
      && (forall r :: 0 <= r < |res.0| && r != res.1.value ==>
            r < |runs| && res.0[r] == runs[r] && !(runs[r].job == j && Dispatched(runs[r].status)))
  {
    if HasDispatched(runs, j) then (runs, None)
    else
      match PendingRun(runs, j)
      case Some(p) => (SetStatus(runs, p, Queued), Some(p))
      case None => (runs + [Run(j, FannedOut, Queued, 1, now)], Some(|runs|))
  }

  /** It refuses exactly if a run is dispatched, promotes the oldest PENDING run, and inserts only if there is none. */
  lemma DependencyRunExact(runs: seq<Run>, j: JobId, now: real)
    ensures var (runs', id) := CreateDependencyRun(runs, j, now);
            && (id.None? <==> exists x :: 0 <= x < |runs| && runs[x].job == j && runs[x].status in {Queued, Running})
            && (id.Some? && id.value < |runs| ==>
                  IsOldest(runs, j, {Pending}, id.value)
                  && runs' == runs[id.value := runs[id.value].(status := Queued)])
            && (id.Some? && id.value >= |runs| ==>
                  (forall p :: !IsOldest(runs, j, {Pending}, p)) && runs' == runs + [Run(j, FannedOut, Queued, 1, now)])
  {}

  lemma {:induction false} ReadyAmongOnce(cfg: Config, runs: seq<Run>, s: seq<JobId>)
    requires NoDuplicates(s)
    ensures NoDuplicates(ReadyAmong(cfg, runs, s))
  {
    if s != [] {
      var front, last := s[..|s| - 1], s[|s| - 1];
      ReadyAmongOnce(cfg, runs, front);
      assert last !in front;
    }
  }

  /** No dependent is listed twice, so one success adds at most one run per dependent. */
  lemma ReadyOnce(cfg: Config, runs: seq<Run>, j: JobId)
    ensures NoDuplicates(DependentsReady(cfg, runs, j))
  {
    ReadyAmongOnce(cfg, runs, Distinct(Dependents(cfg.edges, j)));
  }

  // ------------------------------------------------------- no transaction undoes anything

  lemma GrowsTrans(a: seq<Run>, b: seq<Run>, c: seq<Run>)
    requires Grows(a, b) && Grows(b, c)
    ensures Grows(a, c)
  {}

  lemma SetStatusGrows(runs: seq<Run>, r: RunId, s: Status)
    requires r < |runs| && runs[r].status != Canceled && Rank(runs[r].status) <= Rank(s)
    ensures Grows(runs, SetStatus(runs, r, s))
  {}

  lemma AppendGrows(runs: seq<Run>, runs': seq<Run>)
    requires runs <= runs'
    ensures Grows(runs, runs')
  {}

  lemma TransactionsGrow(runs: seq<Run>, r: RunId, b: bool, s: Status, j: JobId, now: real)
    requires Terminal(s)
    ensures Grows(runs, ClaimRun(runs, r, b))
    ensures Grows(runs, CancelRun(runs, r))
    ensures Grows(runs, FinishRun(runs, r, s))
    ensures Grows(runs, CreateDependencyRun(runs, j, now).0)
  {
    AppendGrows(runs, runs);
    if CanClaim(runs, r, b) { SetStatusGrows(runs, r, Running); }
    if r < |runs| && runs[r].status != Canceled {
      SetStatusGrows(runs, r, Canceled);
      SetStatusGrows(runs, r, s);
    }
    match PendingRun(runs, j)
    case Some(p) => SetStatusGrows(runs, p, Queued);
    case None => AppendGrows(runs, runs + [Run(j, FannedOut, Queued, 1, now)]);
  }

  // ------------------------------------------------------- the code

  class RunStore {
    const cfg: Config
    var runs: seq<Run>

    constructor (cfg: Config, runs: seq<Run>)
      ensures this.cfg == cfg && this.runs == runs
    {
      this.cfg, this.runs := cfg, runs;
    }

    /** `claim_run`: exactly the claimable runs are claimed, and nothing else is touched. */
    method Claim(r: RunId, allowRunning: bool) returns (claimed: bool)
      modifies this`runs
      ensures runs == ClaimRun(old(runs), r, allowRunning)
      ensures claimed <==>
                && r < |old(runs)|
                && (old(runs)[r].status in {Pending, Queued} || (allowRunning && old(runs)[r].status == Running))
      ensures claimed ==> runs == old(runs)[r := old(runs)[r].(status := Running)]
      ensures !claimed ==> runs == old(runs)
    {
      claimed := r < |runs| && Claimable(runs[r].status, allowRunning);
      if claimed { runs := SetStatus(runs, r, Running); }
    }

    /** `cancel_run` */
    method Cancel(r: RunId) returns (ok: bool)
      modifies this`runs
      ensures runs == CancelRun(old(runs), r)
      ensures ok <==> r < |old(runs)| && old(runs)[r].status in {Pending, Queued, Running}
      ensures ok ==> runs == old(runs)[r := old(runs)[r].(status := Canceled)]
      ensures !ok ==> runs == old(runs)
    {
      ok := r < |runs| && Active(runs[r].status);
      if ok { runs := SetStatus(runs, r, Canceled); }
    }

    /** `finish_run` */
    method Finish(r: RunId, result: Status)
      modifies this`runs
      ensures runs == FinishRun(old(runs), r, result)
      ensures r < |old(runs)| && old(runs)[r].status != Canceled ==>
                runs == old(runs)[r := old(runs)[r].(status := result)]
      ensures r < |old(runs)| && old(runs)[r].status == Canceled ==> runs == old(runs)
    {
      if r < |runs| && runs[r].status != Canceled { runs := SetStatus(runs, r, result); }
    }

    /** `create_retry_run`; `parent` is the run whose attempt failed. */
    method CreateRetry(parent: RunId, now: real) returns (id: RunId)
      requires parent < |runs|
      modifies this`runs
      ensures id == |old(runs)| && runs == old(runs) + [RetryRow(old(runs), parent, now)]
      ensures runs[id] ==
              Run(old(runs)[parent].job, AutoRetry(parent), Queued, old(runs)[parent].attempt + 1, now)
    {
      id := |runs|;
      runs := runs + [RetryRow(runs, parent, now)];
    }

    /** `dependents_ready` */
    method ReadyDependents(j: JobId) returns (ready: seq<JobId>)
      ensures ready == DependentsReady(cfg, runs, j)
    {
      ready := [];
      var dependents := Distinct(Dependents(cfg.edges, j));
      for i := 0 to |dependents|
        invariant ready == ReadyAmong(cfg, runs, dependents[..i])
      {
        var d := dependents[i];
        assert dependents[..i + 1][..i] == dependents[..i];
        if d !in cfg.jobs { continue; }
        if !cfg.jobs[d].enabled && PendingRun(runs, d).None? { continue; }
        if HasDispatched(runs, d) { continue; }
        if AllDependenciesSucceeded(cfg.edges, runs, d) { ready := ready + [d]; }
      }
      assert dependents[..|dependents|] == dependents;
    }

    /** `create_dependency_run` */
    method CreateDependency(j: JobId, now: real) returns (id: Option<RunId>)
      modifies this`runs
      ensures (runs, id) == CreateDependencyRun(old(runs), j, now)
    {
      if HasDispatched(runs, j) { return None; }
      id := PendingRun(runs, j);
      if id.Some? {
        runs := SetStatus(runs, id.value, Queued);
      } else {
        id := Some(|runs|);
        runs := runs + [Run(j, FannedOut, Queued, 1, now)];
      }
    }
  }
}
